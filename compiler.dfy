/**
 * `AsyncCodeGenerator`: the four visitors that emit Python source for `{% block %}`,
 * `{% extends %}`, `{% include %}` and the shared part of `{% import %}`.  The generated
 * module is a sequence of lines, each with its indentation level.  Expression visiting,
 * `derive_context`, `get_context_ref` and `dump_local_context` are the opaque strings the
 * base generator would produce.
 */
module Compiler {
  import opened Wrappers
  import opened PyRepr

  /** One emitted source line: indentation level and text. */
  datatype Line = Line(indent: int, text: string)

  /** The parts of a Jinja `Frame` the visitors consult. `derivedContext` and `localContext`
      are what `derive_context(frame)` and `dump_local_context(frame)` return. */
  datatype Frame = Frame(toplevel: bool, rootlevel: bool, buffer: Option<string>,
                         derivedContext: string, localContext: string)

  /** What `isinstance` sees of a template expression; `code` is what visiting it writes. */
  datatype ConstKind = StrConst | SeqConst | OtherConst
  datatype TemplateExpr =
    | ConstExpr(kind: ConstKind, code: string)
    | TupleExpr(code: string)
    | ListExpr(code: string)
    | OtherExpr(code: string)

  datatype BlockNode = BlockNode(name: string, scoped: bool, required: bool)
  datatype ExtendsNode = ExtendsNode(template: TemplateExpr, lineno: nat)
  datatype IncludeNode = IncludeNode(template: TemplateExpr, ignoreMissing: bool, withContext: bool)
  /** `nodes.Import` and `nodes.FromImport` alike. */
  datatype ImportNode = ImportNode(template: TemplateExpr, withContext: bool)

  /** How a visitor ends: normally, by `CompilerExit`, or by `fail` (`TemplateAssertionError`). */
  datatype Outcome = Continue | Exit | Fail(message: string, lineno: nat)

  /** The generator's fixed settings: `environment.is_async`, `repr(self.name)` (computed once,
      by the constructor, with `NameRepr`) and `get_context_ref()`. */
  datatype Config = Config(isAsync: bool, nameRepr: string, contextRef: string)

  /** The generator's mutable state. */
  datatype GenState = GenState(lines: seq<Line>, indentation: int, extendsSoFar: nat, hasKnownExtends: bool)

  // ---------------------------------------------------------------------------------------
  // Primitives of the base generator

  /** `write(x)`: continues the current line (a first write starts a line at column 0). */
  function Append(lines: seq<Line>, x: string): seq<Line> {
    if lines == [] then [Line(0, x)]
    else lines[..|lines| - 1] + [Line(lines[|lines| - 1].indent, lines[|lines| - 1].text + x)]
  }

  /** Writing to a line just emitted continues that line. */
  lemma AppendLast(ls: seq<Line>, l: Line, x: string)
    ensures Append(ls + [l], x) == ls + [Line(l.indent, l.text + x)]
  {
    assert (ls + [l])[..|ls + [l]| - 1] == ls;
  }

  /** Two writes continue the line as one write of both would. */
  lemma AppendTwice(ls: seq<Line>, x: string, y: string)
    ensures Append(Append(ls, x), y) == Append(ls, x + y)
  {
    if ls != [] {
      var last := ls[|ls| - 1];
      AppendLast(ls[..|ls| - 1], Line(last.indent, last.text), x);
      assert ls[..|ls| - 1] + [Line(last.indent, last.text)] == ls;
      AppendLast(ls[..|ls| - 1], Line(last.indent, last.text + x), y);
      assert last.text + x + y == last.text + (x + y);
    }
  }

  /** `choose_async(async_value, sync_value)`. */
  function ChooseAsync(cfg: Config, asyncValue: string, syncValue: string): string {
    if cfg.isAsync then asyncValue else syncValue
  }

  /** `repr(self.name)`. */
  function NameRepr(name: Option<string>): string {
    match name
    case Some(n) => Repr(n)
    case None => "None"
  }

  /** `repr(name)` of a block name.  Block names are identifiers, which hold no quote,
      backslash or control character, so their repr is the name between single quotes
      (`QuotedIsRepr`). */
  function Quoted(name: string): string {
    "'" + name + "'"
  }

  lemma QuotedIsRepr(name: string)
    requires Plain(name)
    ensures Quoted(name) == Repr(name)
  {
    ReprOfPlain(name);
  }

  /** The line `simple_write(s, frame)` emits. */
  function SimpleWriteText(s: string, frame: Frame): string {
    match frame.buffer
    case None => "yield " + s
    case Some(b) => b + ".append(" + s + ")"
  }

  // ---------------------------------------------------------------------------------------
  // Well-nested output

  /** A line that opens an indented suite. */
  predicate Opens(text: string) {
    |text| > 0 && text[|text| - 1] == ':'
  }

  /** A run of lines that starts at `base`, never goes below it, indents by exactly one after
      every line ending in ':', never indents otherwise, and does not end on an open suite:
      valid Python indentation that leaves the level where it started. */
  predicate Nested(ls: seq<Line>, base: int) {
    && (forall i :: 0 <= i < |ls| ==> ls[i].indent >= base)
    && (|ls| > 0 ==> ls[0].indent == base && !Opens(ls[|ls| - 1].text))
    && (forall i :: 0 <= i < |ls| - 1 ==>
          if Opens(ls[i].text) then ls[i + 1].indent == ls[i].indent + 1 else ls[i + 1].indent <= ls[i].indent)
  }

  lemma LastChar(x: string, y: string)
    requires y != []
    ensures |x + y| > 0 && (x + y)[|x + y| - 1] == y[|y| - 1]
  {
  }

  lemma NestedLine(l: Line)
    requires !Opens(l.text)
    ensures Nested([l], l.indent)
  {
  }

  /** Two nested runs at the same level, one after the other, are nested. */
  lemma NestedConcat(a: seq<Line>, b: seq<Line>, base: int)
    requires Nested(a, base) && Nested(b, base)
    ensures Nested(a + b, base)
  {
    var ab := a + b;
    forall i | 0 <= i < |ab| - 1
      ensures if Opens(ab[i].text) then ab[i + 1].indent == ab[i].indent + 1 else ab[i + 1].indent <= ab[i].indent
    {
      if i < |a| - 1 {
        assert ab[i] == a[i] && ab[i + 1] == a[i + 1];
      } else if i == |a| - 1 {
        assert ab[i] == a[|a| - 1] && ab[i + 1] == b[0];
      } else {
        assert ab[i] == b[i - |a|] && ab[i + 1] == b[i - |a| + 1];
      }
    }
    if b != [] {
      assert ab[|ab| - 1] == b[|b| - 1];
    }
  }

  /** A line opening a suite, followed by a non-empty nested run one level deeper. */
  lemma NestedWrap(opener: string, body: seq<Line>, base: int)
    requires Opens(opener) && body != [] && Nested(body, base + 1)
    ensures Nested([Line(base, opener)] + body, base)
  {
    var w := [Line(base, opener)] + body;
    forall i | 0 <= i < |w| - 1
      ensures if Opens(w[i].text) then w[i + 1].indent == w[i].indent + 1 else w[i + 1].indent <= w[i].indent
    {
      if i > 0 {
        assert w[i] == body[i - 1] && w[i + 1] == body[i];
      }
    }
    assert w[|w| - 1] == body[|body| - 1];
  }

  // ---------------------------------------------------------------------------------------
  // visit_Block

  function GuardText(name: string): string {
    "if len(context.blocks[" + Quoted(name) + "]) <= 1:"
  }

  function RequiredRaiseText(name: string): string {
    "raise TemplateRuntimeError(\"Required block " + Quoted(name) + " not found\")"
  }

  /** The sync, unbuffered render line: delegate to the first block in the chain. */
  function YieldFromBlockText(name: string, context: string): string {
    "yield from context.blocks[" + Quoted(name) + "][0](" + context + ")"
  }

  /** The loop header over the first block in the chain. */
  function ForEventBlockText(cfg: Config, name: string, context: string): string {
    ChooseAsync(cfg, "async ", "") + "for event in context.blocks[" + Quoted(name) + "][0](" + context + "):"
  }

  /** The guard of a `required` block: fail at run time unless some child template
      overrides it (the chain then holds more than this block's own function). */
  function RequiredGuard(node: BlockNode, base: int): seq<Line> {
    if node.required
    then [Line(base, GuardText(node.name)), Line(base + 1, RequiredRaiseText(node.name))]
    else []
  }

  /** The context the block function is called with. */
  function BlockContext(cfg: Config, frame: Frame, node: BlockNode): string {
    if node.scoped then frame.derivedContext else cfg.contextRef
  }

  /** The render line(s): `yield from` the first function of the chain, or loop over it. */
  function BlockRender(cfg: Config, frame: Frame, node: BlockNode, base: int): seq<Line> {
    var context := BlockContext(cfg, frame, node);
    if !cfg.isAsync && frame.buffer.None?
    then [Line(base, YieldFromBlockText(node.name, context))]
    else [Line(base, ForEventBlockText(cfg, node.name, context)), Line(base + 1, SimpleWriteText("event", frame))]
  }

  /** The block body at level `base`: the required guard, then the render line(s). */
  function BlockBody(cfg: Config, frame: Frame, node: BlockNode, base: int): seq<Line> {
    RequiredGuard(node, base) + BlockRender(cfg, frame, node, base)
  }

  /** The lines `visit_Block` emits: nothing for a top-level block once the parent is
      known, the body under `if parent_template is None:` for a top-level block after an
      extends whose parent is decided at run time, and the body alone otherwise. */
  function BlockLines(cfg: Config, st: GenState, frame: Frame, node: BlockNode): seq<Line> {
    if frame.toplevel && st.hasKnownExtends then []
    else if frame.toplevel && st.extendsSoFar > 0 then
      [Line(st.indentation, "if parent_template is None:")] + BlockBody(cfg, frame, node, st.indentation + 1)
    else BlockBody(cfg, frame, node, st.indentation)
  }

  /** What `visit_Block` does to the generator: it only appends lines. */
  function BlockStep(cfg: Config, st: GenState, frame: Frame, node: BlockNode): GenState {
    st.(lines := st.lines + BlockLines(cfg, st, frame, node))
  }

  lemma BlockRenderNested(cfg: Config, frame: Frame, node: BlockNode, base: int)
    ensures BlockRender(cfg, frame, node, base) != []
    ensures Nested(BlockRender(cfg, frame, node, base), base)
  {
    var context := BlockContext(cfg, frame, node);
    if !cfg.isAsync && frame.buffer.None? {
      LastChar("yield from context.blocks[" + Quoted(node.name) + "][0](" + context, ")");
      NestedLine(Line(base, YieldFromBlockText(node.name, context)));
    } else {
      var event := Line(base + 1, SimpleWriteText("event", frame));
      EventLineCloses(frame);
      NestedLine(event);
      LastChar(ChooseAsync(cfg, "async ", "") + "for event in context.blocks[" + Quoted(node.name) + "][0](" + context + ")", ":");
      NestedWrap(ForEventBlockText(cfg, node.name, context), [event], base);
    }
  }

  lemma RequiredGuardNested(node: BlockNode, base: int)
    ensures Nested(RequiredGuard(node, base), base)
  {
    if node.required {
      var raise := Line(base + 1, RequiredRaiseText(node.name));
      LastChar("raise TemplateRuntimeError(\"Required block " + Quoted(node.name) + " not found\"", ")");
      NestedLine(raise);
      LastChar("if len(context.blocks[" + Quoted(node.name) + "]) <= 1", ":");
      NestedWrap(GuardText(node.name), [raise], base);
    }
  }

  lemma BlockBodyNested(cfg: Config, frame: Frame, node: BlockNode, base: int)
    ensures BlockBody(cfg, frame, node, base) != []
    ensures Nested(BlockBody(cfg, frame, node, base), base)
  {
    BlockRenderNested(cfg, frame, node, base);
    RequiredGuardNested(node, base);
    NestedConcat(RequiredGuard(node, base), BlockRender(cfg, frame, node, base), base);
  }

  /** `visit_Block` emits a well-nested run at the current level (nothing at all for a
      top-level block once the parent is known) and leaves the level and the extends state
      as they were. */
  lemma BlockStepNested(cfg: Config, st: GenState, frame: Frame, node: BlockNode)
    ensures Nested(BlockLines(cfg, st, frame, node), st.indentation)
    ensures BlockLines(cfg, st, frame, node) == [] <==> frame.toplevel && st.hasKnownExtends
  {
    var ind := st.indentation;
    if frame.toplevel && st.hasKnownExtends {
    } else if frame.toplevel && st.extendsSoFar > 0 {
      var body := BlockBody(cfg, frame, node, ind + 1);
      BlockBodyNested(cfg, frame, node, ind + 1);
      NestedWrap("if parent_template is None:", body, ind);
      assert BlockLines(cfg, st, frame, node) == [Line(ind, "if parent_template is None:")] + body;
    } else {
      BlockBodyNested(cfg, frame, node, ind);
      assert BlockLines(cfg, st, frame, node) == BlockBody(cfg, frame, node, ind);
    }
  }

  /** A required block's guard, with its raise one level deeper, comes right before the
      render line; the render line always dispatches to `context.blocks[name][0]`, as a
      `yield from` exactly when the generator is sync and the frame has no buffer. */
  lemma RequiredGuardBeforeRender(cfg: Config, frame: Frame, node: BlockNode, base: int)
    ensures var body := BlockBody(cfg, frame, node, base);
      var context := BlockContext(cfg, frame, node);
      var k := if node.required then 2 else 0;
      && |body| > k
      && (node.required ==> body[0] == Line(base, GuardText(node.name))
                            && body[1] == Line(base + 1, RequiredRaiseText(node.name)))
      && (!cfg.isAsync && frame.buffer.None? ==>
            body[k] == Line(base, YieldFromBlockText(node.name, context)) && |body| == k + 1)
      && (cfg.isAsync || frame.buffer.Some? ==>
            body[k] == Line(base, ForEventBlockText(cfg, node.name, context))
            && body[k + 1] == Line(base + 1, SimpleWriteText("event", frame)) && |body| == k + 2)
  {
  }

  // ---------------------------------------------------------------------------------------
  // visit_Extends

  const ExtendsTwiceText := "raise TemplateRuntimeError(\"extended multiple times\")"
  const MergeLoopText := "for name, parent_block in parent_template.blocks.items():"
  const MergeBodyText := "context.blocks.setdefault(name, []).append(parent_block)"

  /** `parent_template = [await ]environment.get_template(<template>, <repr(name)>)`. */
  function ParentLineText(cfg: Config, template: TemplateExpr): string {
    "parent_template = " + ChooseAsync(cfg, "await ", "") + "environment.get_template("
      + template.code + ", " + cfg.nameRepr + ")"
  }

  /** Loading the parent and appending its blocks to each block chain. */
  function ParentLines(cfg: Config, node: ExtendsNode, base: int): seq<Line> {
    [Line(base, ParentLineText(cfg, node.template)), Line(base, MergeLoopText), Line(base + 1, MergeBodyText)]
  }

  /** How `visit_Extends` ends. */
  function ExtendsOutcome(st: GenState, frame: Frame, node: ExtendsNode): Outcome {
    if !frame.toplevel then Fail("cannot use extend from a non top-level scope", node.lineno)
    else if st.extendsSoFar > 0 && st.hasKnownExtends then Exit
    else Continue
  }

  /** The lines `visit_Extends` emits before it ends. */
  function ExtendsLines(cfg: Config, st: GenState, frame: Frame, node: ExtendsNode): seq<Line> {
    var ind := st.indentation;
    if !frame.toplevel then []
    else if st.extendsSoFar > 0 && st.hasKnownExtends then [Line(ind, ExtendsTwiceText)]
    else if st.extendsSoFar > 0 then
      [Line(ind, "if parent_template is not None:"), Line(ind + 1, ExtendsTwiceText)] + ParentLines(cfg, node, ind)
    else ParentLines(cfg, node, ind)
  }

  /** What `visit_Extends` does to the generator, and how it ends. */
  function ExtendsStep(cfg: Config, st: GenState, frame: Frame, node: ExtendsNode): (Outcome, GenState) {
    var o := ExtendsOutcome(st, frame, node);
    var lines := st.lines + ExtendsLines(cfg, st, frame, node);
    if o == Continue then
      (o, st.(lines := lines, extendsSoFar := st.extendsSoFar + 1,
              hasKnownExtends := st.hasKnownExtends || frame.rootlevel))
    else (o, st.(lines := lines))
  }

  /** Once the parent is known, an extends has been seen. */
  predicate GenValid(st: GenState) {
    st.hasKnownExtends ==> st.extendsSoFar > 0
  }

  /** The three ways `visit_Extends` ends.  It fails outside the top level, leaving
      everything as it was; it stops compilation after emitting the "extended multiple
      times" raise when the parent is already known; otherwise it counts one more extends,
      records the parent as known exactly in a root frame, and emits a well-nested run whose
      last two lines merge the parent's blocks into the block chains. */
  lemma ExtendsOutcomes(cfg: Config, st: GenState, frame: Frame, node: ExtendsNode)
    requires GenValid(st)
    ensures var (o, s) := ExtendsStep(cfg, st, frame, node);
      var emitted := ExtendsLines(cfg, st, frame, node);
      && GenValid(s) && s.indentation == st.indentation && s.lines == st.lines + emitted
      && Nested(emitted, st.indentation)
      && (o.Fail? <==> !frame.toplevel)
      && (o.Fail? ==> o == Fail("cannot use extend from a non top-level scope", node.lineno) && s == st)
      && (o == Exit <==> frame.toplevel && st.hasKnownExtends)
      && (o == Exit ==> emitted == [Line(st.indentation, ExtendsTwiceText)]
                        && s.extendsSoFar == st.extendsSoFar && s.hasKnownExtends)
      && (o == Continue ==>
            && s.extendsSoFar == st.extendsSoFar + 1
            && s.hasKnownExtends == (st.hasKnownExtends || frame.rootlevel)
            && |emitted| >= 3
            && emitted[|emitted| - 2] == Line(st.indentation, MergeLoopText)
            && emitted[|emitted| - 1] == Line(st.indentation + 1, MergeBodyText))
  {
    var ind := st.indentation;
    if !frame.toplevel {
      assert ExtendsLines(cfg, st, frame, node) == [];
    } else if st.hasKnownExtends {
      assert ExtendsLines(cfg, st, frame, node) == [Line(ind, ExtendsTwiceText)];
      NestedLine(Line(ind, ExtendsTwiceText));
    } else {
      var guard := if st.extendsSoFar > 0
        then [Line(ind, "if parent_template is not None:"), Line(ind + 1, ExtendsTwiceText)]
        else [];
      var emitted := guard + ParentLines(cfg, node, ind);
      ExtendsLinesNested(cfg, node, ind, guard);
      assert ExtendsLines(cfg, st, frame, node) == emitted;
      assert emitted[|emitted| - 2] == Line(ind, MergeLoopText);
      assert emitted[|emitted| - 1] == Line(ind + 1, MergeBodyText);
    }
  }

  /** The parent load and block merge, after the optional guarded raise, are well nested. */
  lemma ExtendsLinesNested(cfg: Config, node: ExtendsNode, ind: int, guard: seq<Line>)
    requires guard == [] || guard == [Line(ind, "if parent_template is not None:"), Line(ind + 1, ExtendsTwiceText)]
    ensures Nested(guard + ParentLines(cfg, node, ind), ind)
  {
    var parent := ParentLines(cfg, node, ind);
    LastChar("parent_template = " + ChooseAsync(cfg, "await ", "") + "environment.get_template("
             + node.template.code + ", " + cfg.nameRepr, ")");
    NestedLine(parent[0]);
    NestedLine(parent[2]);
    NestedWrap(MergeLoopText, [parent[2]], ind);
    NestedConcat([parent[0]], [parent[1], parent[2]], ind);
    assert [parent[0]] + [parent[1], parent[2]] == parent;
    if guard != [] {
      NestedLine(Line(ind + 1, ExtendsTwiceText));
      NestedWrap("if parent_template is not None:", [Line(ind + 1, ExtendsTwiceText)], ind);
      NestedConcat(guard, parent, ind);
    } else {
      assert guard + parent == parent;
    }
  }

  /** After an extends in the root frame, later top-level blocks emit nothing and a second
      extends emits the "extended multiple times" raise and stops compilation. */
  lemma RootExtendsSilencesLater(cfg: Config, st: GenState, root: Frame, node: ExtendsNode,
                                 top: Frame, block: BlockNode, again: ExtendsNode)
    requires GenValid(st) && root.toplevel && root.rootlevel && !st.hasKnownExtends
    requires top.toplevel
    ensures var (o, s) := ExtendsStep(cfg, st, root, node);
      && o == Continue
      && BlockStep(cfg, s, top, block) == s
      && ExtendsStep(cfg, s, top, again) == (Exit, s.(lines := s.lines + [Line(s.indentation, ExtendsTwiceText)]))
  {
  }

  /** After an extends in a top-level but non-root frame (inside a top-level `if`), the
      parent is decided at run time: a later top-level block is wrapped in
      `if parent_template is None:` and a later extends guards its raise with
      `if parent_template is not None:`, one level deeper. */
  lemma ConditionalExtendsGuardsLater(cfg: Config, st: GenState, frame: Frame, node: ExtendsNode,
                                      top: Frame, block: BlockNode, again: ExtendsNode)
    requires GenValid(st) && frame.toplevel && !frame.rootlevel && !st.hasKnownExtends
    requires top.toplevel
    ensures var (o, s) := ExtendsStep(cfg, st, frame, node);
      && o == Continue && !s.hasKnownExtends && s.extendsSoFar > 0
      && |BlockLines(cfg, s, top, block)| > 1
      && BlockLines(cfg, s, top, block)[0] == Line(s.indentation, "if parent_template is None:")
      && BlockLines(cfg, s, top, block)[1].indent == s.indentation + 1
      && ExtendsOutcome(s, top, again) == Continue
      && ExtendsLines(cfg, s, top, again)[..2]
         == [Line(s.indentation, "if parent_template is not None:"), Line(s.indentation + 1, ExtendsTwiceText)]
  {
    var (o, s) := ExtendsStep(cfg, st, frame, node);
    BlockBodyNested(cfg, top, block, s.indentation + 1);
  }

  // ---------------------------------------------------------------------------------------
  // visit_Include and _import_common

  /** The environment method that loads the included template. */
  function LookupName(template: TemplateExpr): string {
    match template
    case ConstExpr(StrConst, _) => "get_template"
    case ConstExpr(SeqConst, _) => "select_template"
    case ConstExpr(OtherConst, _) => "get_or_select_template"
    case TupleExpr(_) => "select_template"
    case ListExpr(_) => "select_template"
    case OtherExpr(_) => "get_or_select_template"
  }

  function LookupLineText(cfg: Config, template: TemplateExpr): string {
    "template = " + ChooseAsync(cfg, "await ", "") + "environment." + LookupName(template) + "("
      + template.code + ", " + cfg.nameRepr + ")"
  }

  function WithContextText(cfg: Config, frame: Frame): string {
    ChooseAsync(cfg, "async ", "") + "for event in template.root_render_func("
      + "template.new_context(context.get_all(), True, " + frame.localContext + ")):"
  }

  const AsyncModuleLoopText := "for event in (await template._get_default_module_async())._body_stream:"
  const SyncModuleText := "yield from template._get_default_module()._body_stream"

  /** The include body at level `base`. */
  function IncludeBody(cfg: Config, frame: Frame, node: IncludeNode, base: int): seq<Line> {
    if node.withContext then
      [Line(base, WithContextText(cfg, frame)), Line(base + 1, SimpleWriteText("event", frame))]
    else if cfg.isAsync then
      [Line(base, AsyncModuleLoopText), Line(base + 1, SimpleWriteText("event", frame))]
    else [Line(base, SyncModuleText)]
  }

  /** The lines `visit_Include` emits at level `base`. */
  function IncludeLines(cfg: Config, frame: Frame, node: IncludeNode, base: int): seq<Line> {
    if node.ignoreMissing then
      [Line(base, "try:"), Line(base + 1, LookupLineText(cfg, node.template)),
       Line(base, "except TemplateNotFound:"), Line(base + 1, "pass"), Line(base, "else:")]
      + IncludeBody(cfg, frame, node, base + 1)
    else [Line(base, LookupLineText(cfg, node.template))] + IncludeBody(cfg, frame, node, base)
  }

  /** What `visit_Include` does to the generator. */
  function IncludeStep(cfg: Config, st: GenState, frame: Frame, node: IncludeNode): GenState {
    st.(lines := st.lines + IncludeLines(cfg, frame, node, st.indentation))
  }

  lemma LookupLineCloses(cfg: Config, template: TemplateExpr)
    ensures !Opens(LookupLineText(cfg, template))
  {
    LastChar("template = " + ChooseAsync(cfg, "await ", "") + "environment." + LookupName(template) + "("
             + template.code + ", " + cfg.nameRepr, ")");
  }

  lemma EventLineCloses(frame: Frame)
    ensures !Opens(SimpleWriteText("event", frame))
  {
    if frame.buffer.Some? {
      LastChar(frame.buffer.value + ".append(" + "event", ")");
    } else {
      LastChar("yield ", "event");
    }
  }

  lemma IncludeBodyNested(cfg: Config, frame: Frame, node: IncludeNode, base: int)
    ensures IncludeBody(cfg, frame, node, base) != []
    ensures Nested(IncludeBody(cfg, frame, node, base), base)
  {
    EventLineCloses(frame);
    var event := Line(base + 1, SimpleWriteText("event", frame));
    if node.withContext {
      LastChar(ChooseAsync(cfg, "async ", "") + "for event in template.root_render_func("
               + "template.new_context(context.get_all(), True, " + frame.localContext + "))", ":");
      NestedLine(event);
      NestedWrap(WithContextText(cfg, frame), [event], base);
    } else if cfg.isAsync {
      NestedLine(event);
      NestedWrap(AsyncModuleLoopText, [event], base);
    }
  }

  /** `visit_Include` emits a well-nested run at the current level and leaves the level and
      the extends state as they were. */
  lemma IncludeStepNested(cfg: Config, st: GenState, frame: Frame, node: IncludeNode)
    ensures var s := IncludeStep(cfg, st, frame, node);
      && s.indentation == st.indentation && s.extendsSoFar == st.extendsSoFar
      && s.hasKnownExtends == st.hasKnownExtends
      && |s.lines| > |st.lines| && s.lines[..|st.lines|] == st.lines
      && Nested(s.lines[|st.lines|..], st.indentation)
  {
    IncludeLinesNested(cfg, frame, node, st.indentation);
    var s := IncludeStep(cfg, st, frame, node);
    assert s.lines[|st.lines|..] == IncludeLines(cfg, frame, node, st.indentation);
  }

  lemma IncludeLinesNested(cfg: Config, frame: Frame, node: IncludeNode, ind: int)
    ensures Nested(IncludeLines(cfg, frame, node, ind), ind)
  {
    var lookup := LookupLineText(cfg, node.template);
    LookupLineCloses(cfg, node.template);
    if node.ignoreMissing {
      IgnoreMissingNested(cfg, frame, node, ind);
    } else {
      IncludeBodyNested(cfg, frame, node, ind);
      NestedLine(Line(ind, lookup));
      NestedConcat([Line(ind, lookup)], IncludeBody(cfg, frame, node, ind), ind);
    }
  }

  lemma IgnoreMissingNested(cfg: Config, frame: Frame, node: IncludeNode, ind: int)
    requires node.ignoreMissing
    ensures Nested(IncludeLines(cfg, frame, node, ind), ind)
  {
    var lookup := LookupLineText(cfg, node.template);
    LookupLineCloses(cfg, node.template);
    var body := IncludeBody(cfg, frame, node, ind + 1);
    IncludeBodyNested(cfg, frame, node, ind + 1);
    var tryPart := [Line(ind, "try:"), Line(ind + 1, lookup)];
    var exceptPart := [Line(ind, "except TemplateNotFound:"), Line(ind + 1, "pass")];
    NestedLine(Line(ind + 1, lookup));
    NestedWrap("try:", [Line(ind + 1, lookup)], ind);
    NestedLine(Line(ind + 1, "pass"));
    NestedWrap("except TemplateNotFound:", [Line(ind + 1, "pass")], ind);
    NestedWrap("else:", body, ind);
    NestedConcat(tryPart, exceptPart, ind);
    NestedConcat(tryPart + exceptPart, [Line(ind, "else:")] + body, ind);
    assert IncludeLines(cfg, frame, node, ind) == tryPart + exceptPart + ([Line(ind, "else:")] + body);
  }

  /** The lookup is `get_template` exactly for a string constant, `select_template` exactly
      for a tuple or list (constant or literal), `get_or_select_template` otherwise. */
  lemma IncludeLookupChoice(template: TemplateExpr)
    ensures LookupName(template) == "get_template" <==> template.ConstExpr? && template.kind == StrConst
    ensures LookupName(template) == "select_template"
      <==> (template.ConstExpr? && template.kind == SeqConst) || template.TupleExpr? || template.ListExpr?
    ensures LookupName(template) == "get_or_select_template"
      <==> (template.ConstExpr? && template.kind == OtherConst) || template.OtherExpr?
  {
    assert "get_template"[1] != "get_or_select_template"[4];
    assert "select_template"[0] != "get_template"[0];
    assert "get_or_select_template"[4] == 'o' && "get_template"[4] == 't';
    assert "select_template"[0] != "get_or_select_template"[0];
  }

  /** `ignore_missing` puts the lookup inside `try` / `except TemplateNotFound: pass` /
      `else:` with the body under the `else`; of the three bodies, only the sync form
      without context writes no event line. */
  lemma IncludeShape(cfg: Config, frame: Frame, node: IncludeNode, base: int)
    ensures var ls := IncludeLines(cfg, frame, node, base);
      var b := if node.ignoreMissing then base + 1 else base;
      var k := if node.ignoreMissing then 5 else 1;
      && |ls| > k
      && (node.ignoreMissing ==>
            ls[..5] == [Line(base, "try:"), Line(base + 1, LookupLineText(cfg, node.template)),
                        Line(base, "except TemplateNotFound:"), Line(base + 1, "pass"), Line(base, "else:")])
      && (!node.ignoreMissing ==> ls[0] == Line(base, LookupLineText(cfg, node.template)))
      && (node.withContext || cfg.isAsync <==> |ls| == k + 2)
      && (node.withContext || cfg.isAsync ==> ls[k + 1] == Line(b + 1, SimpleWriteText("event", frame)))
      && (!node.withContext && !cfg.isAsync ==> ls[k] == Line(b, SyncModuleText))
  {
  }

  /** The module call that ends an import: the template module built over the local context
      `with context`, else the default module over `context`. */
  function ModuleCall(cfg: Config, frame: Frame, withContext: bool): string {
    if withContext
    then "make_module" + ChooseAsync(cfg, "_async", "") + "(context.get_all(), True, " + frame.localContext + ")"
    else "_get_default_module" + ChooseAsync(cfg, "_async", "") + "(context)"
  }

  /** The call `_import_common` appends to the current line. */
  function ImportText(cfg: Config, frame: Frame, node: ImportNode): string {
    ChooseAsync(cfg, "await ", "") + "environment.get_template(" + node.template.code + ", "
      + cfg.nameRepr + ")." + ModuleCall(cfg, frame, node.withContext)
  }

  /** What `_import_common` does to the generator. */
  function ImportStep(cfg: Config, st: GenState, frame: Frame, node: ImportNode): GenState {
    st.(lines := Append(st.lines, ImportText(cfg, frame, node)))
  }

  /** `_import_common` emits no line of its own: it continues the line its caller started
      (the assignment target), at that line's level. */
  lemma ImportExtendsLine(cfg: Config, st: GenState, frame: Frame, node: ImportNode)
    requires st.lines != []
    ensures var s := ImportStep(cfg, st, frame, node);
      var last := st.lines[|st.lines| - 1];
      && s.indentation == st.indentation
      && s.lines == st.lines[..|st.lines| - 1] + [Line(last.indent, last.text + ImportText(cfg, frame, node))]
  {
  }

  /** The import call awaits exactly in async mode and loads the template expression the
      node names. */
  lemma ImportTextHead(cfg: Config, frame: Frame, node: ImportNode)
    ensures var t := ImportText(cfg, frame, node);
      var head := ChooseAsync(cfg, "await ", "") + "environment.get_template(";
      && |t| > |head| + |node.template.code|
      && t[..|head|] == head
      && t[|head|..|head| + |node.template.code|] == node.template.code
      && (cfg.isAsync <==> t[..6] == "await ")
  {
    var head := ChooseAsync(cfg, "await ", "") + "environment.get_template(";
    var rest := ", " + cfg.nameRepr + ")." + ModuleCall(cfg, frame, node.withContext);
    Infix(head, node.template.code, rest);
    if cfg.isAsync {
      assert head[..6] == "await ";
    } else {
      assert head[0] == 'e';
    }
  }

  /** `a` and `b` are the first two parts of `a + b + c`. */
  lemma Infix(a: string, b: string, c: string)
    ensures (a + b + c)[..|a|] == a && (a + b + c)[|a|..|a| + |b|] == b
  {
  }

  /** `b` is what is left of `a + b` after `a`. */
  lemma SuffixAfter(a: string, b: string)
    ensures (a + b)[|a|..] == b
  {
  }

  /** The import call ends with the module call `with context` selects. */
  lemma ImportTextTail(cfg: Config, frame: Frame, node: ImportNode)
    ensures var t := ImportText(cfg, frame, node);
      var call := ModuleCall(cfg, frame, node.withContext);
      |t| > |call| && t[|t| - |call|..] == call
  {
    var init := ChooseAsync(cfg, "await ", "") + "environment.get_template(" + node.template.code + ", "
      + cfg.nameRepr + ").";
    SuffixAfter(init, ModuleCall(cfg, frame, node.withContext));
  }

  // ---------------------------------------------------------------------------------------
  // The generator

  class CodeGenerator {
    const cfg: Config
    var lines: seq<Line>
    var indentation: int
    var extendsSoFar: nat
    var hasKnownExtends: bool

    function State(): GenState
      reads this
    {
      GenState(lines, indentation, extendsSoFar, hasKnownExtends)
    }

    constructor (isAsync: bool, name: Option<string>, contextRef: string)
      ensures cfg == Config(isAsync, NameRepr(name), contextRef)
      ensures State() == GenState([], 0, 0, false)
    {
      cfg := Config(isAsync, NameRepr(name), contextRef);
      lines := [];
      indentation := 0;
      extendsSoFar := 0;
      hasKnownExtends := false;
    }

    /** `writeline(x)`: a new line at the current level. */
    method Writeline(x: string)
      modifies this
      ensures lines == old(lines) + [Line(indentation, x)]
      ensures indentation == old(indentation) && extendsSoFar == old(extendsSoFar)
      ensures hasKnownExtends == old(hasKnownExtends)
    {
      lines := lines + [Line(indentation, x)];
    }

    /** `write(x)`. */
    method Write(x: string)
      modifies this
      ensures lines == Append(old(lines), x)
      ensures indentation == old(indentation) && extendsSoFar == old(extendsSoFar)
      ensures hasKnownExtends == old(hasKnownExtends)
    {
      if lines == [] {
        lines := [Line(0, x)];
      } else {
        var last := lines[|lines| - 1];
        lines := lines[..|lines| - 1] + [Line(last.indent, last.text + x)];
      }
    }

    method Indent()
      modifies this
      ensures indentation == old(indentation) + 1
      ensures lines == old(lines) && extendsSoFar == old(extendsSoFar) && hasKnownExtends == old(hasKnownExtends)
    {
      indentation := indentation + 1;
    }

    method Outdent(step: int)
      modifies this
      ensures indentation == old(indentation) - step
      ensures lines == old(lines) && extendsSoFar == old(extendsSoFar) && hasKnownExtends == old(hasKnownExtends)
    {
      indentation := indentation - step;
    }

    /** `simple_write(s, frame)`. */
    method SimpleWrite(s: string, frame: Frame)
      modifies this
      ensures lines == old(lines) + [Line(indentation, SimpleWriteText(s, frame))]
      ensures indentation == old(indentation) && extendsSoFar == old(extendsSoFar)
      ensures hasKnownExtends == old(hasKnownExtends)
    {
      if frame.buffer.None? {
        Writeline("yield " + s);
      } else {
        Writeline(frame.buffer.value + ".append(" + s + ")");
      }
    }

    /** `writeline(head)`, `visit(template)`, `write(", <repr(name)>)")`: the call both
        `visit_Extends` and `visit_Include` emit. */
    method WriteTemplateCall(head: string, template: TemplateExpr)
      modifies this
      ensures lines == old(lines) + [Line(indentation, head + template.code + ", " + cfg.nameRepr + ")")]
      ensures indentation == old(indentation) && extendsSoFar == old(extendsSoFar)
      ensures hasKnownExtends == old(hasKnownExtends)
    {
      Writeline(head);
      Write(template.code);
      AppendLast(old(lines), Line(indentation, head), template.code);
      Write(", " + cfg.nameRepr + ")");
      AppendLast(old(lines), Line(indentation, head + template.code), ", " + cfg.nameRepr + ")");
      assert head + template.code + (", " + cfg.nameRepr + ")") == head + template.code + ", " + cfg.nameRepr + ")";
    }

    /** A loop header and the `simple_write("event")` indented under it. */
    method WriteEventLoop(header: string, frame: Frame)
      modifies this
      ensures lines == old(lines) + [Line(indentation, header), Line(indentation + 1, SimpleWriteText("event", frame))]
      ensures indentation == old(indentation) && extendsSoFar == old(extendsSoFar)
      ensures hasKnownExtends == old(hasKnownExtends)
    {
      Writeline(header);
      Indent();
      SimpleWrite("event", frame);
      Outdent(1);
    }

    /** The part of `visit_Block` after the top-level check: the required guard and the
        render line(s) at the current level. */
    method WriteBlockBody(node: BlockNode, frame: Frame)
      modifies this
      ensures lines == old(lines) + BlockBody(cfg, frame, node, indentation)
      ensures indentation == old(indentation) && extendsSoFar == old(extendsSoFar)
      ensures hasKnownExtends == old(hasKnownExtends)
    {
      var context := if node.scoped then frame.derivedContext else cfg.contextRef;
      if node.required {
        Writeline(GuardText(node.name));
        Indent();
        Writeline(RequiredRaiseText(node.name));
        Outdent(1);
      }
      assert lines == old(lines) + RequiredGuard(node, indentation);
      if !cfg.isAsync && frame.buffer.None? {
        Writeline(YieldFromBlockText(node.name, context));
      } else {
        WriteEventLoop(ForEventBlockText(cfg, node.name, context), frame);
      }
    }

    method VisitBlock(node: BlockNode, frame: Frame)
      modifies this
      ensures State() == BlockStep(cfg, old(State()), frame, node)
    {
      var level := 0;
      if frame.toplevel {
        if hasKnownExtends {
          return;
        }
        if extendsSoFar > 0 {
          Writeline("if parent_template is None:");
          Indent();
          level := level + 1;
        }
      }
      WriteBlockBody(node, frame);
      Outdent(level);
    }

    method VisitExtends(node: ExtendsNode, frame: Frame) returns (outcome: Outcome)
      modifies this
      ensures (outcome, State()) == ExtendsStep(cfg, old(State()), frame, node)
    {
      if !frame.toplevel {
        assert lines + ExtendsLines(cfg, State(), frame, node) == lines;
        return Fail("cannot use extend from a non top-level scope", node.lineno);
      }
      ghost var start := lines;
      ghost var ind := indentation;
      if extendsSoFar > 0 {
        if !hasKnownExtends {
          Writeline("if parent_template is not None:");
          Indent();
        }
        Writeline(ExtendsTwiceText);
        if hasKnownExtends {
          return Exit;
        } else {
          Outdent(1);
        }
      }
      assert indentation == ind;
      assert lines == start + if old(extendsSoFar) > 0
        then [Line(ind, "if parent_template is not None:"), Line(ind + 1, ExtendsTwiceText)]
        else [];
      WriteTemplateCall("parent_template = " + ChooseAsync(cfg, "await ", "") + "environment.get_template(", node.template);
      ghost var guard := if old(extendsSoFar) > 0
        then [Line(ind, "if parent_template is not None:"), Line(ind + 1, ExtendsTwiceText)]
        else [];
      assert lines == start + guard + [Line(ind, ParentLineText(cfg, node.template))];
      Writeline(MergeLoopText);
      Indent();
      Writeline(MergeBodyText);
      Outdent(1);
      assert lines == start + guard + ParentLines(cfg, node, ind);
      assert guard + ParentLines(cfg, node, ind) == ExtendsLines(cfg, old(State()), frame, node);
      assert extendsSoFar == old(extendsSoFar) && hasKnownExtends == old(hasKnownExtends) && indentation == ind;
      if frame.rootlevel {
        hasKnownExtends := true;
      }
      extendsSoFar := extendsSoFar + 1;
      assert ExtendsOutcome(old(State()), frame, node) == Continue;
      assert State() == old(State()).(lines := old(lines) + ExtendsLines(cfg, old(State()), frame, node),
                                      extendsSoFar := old(extendsSoFar) + 1,
                                      hasKnownExtends := old(hasKnownExtends) || frame.rootlevel);
      return Continue;
    }

    /** The second half of `visit_Include`: the loop (or `yield from`) over the included
        template's events at the current level. */
    method WriteIncludeBody(node: IncludeNode, frame: Frame)
      modifies this
      ensures lines == old(lines) + IncludeBody(cfg, frame, node, indentation)
      ensures indentation == old(indentation) && extendsSoFar == old(extendsSoFar)
      ensures hasKnownExtends == old(hasKnownExtends)
    {
      var skipEventYield := false;
      if node.withContext {
        Writeline(WithContextText(cfg, frame));
      } else if cfg.isAsync {
        Writeline(AsyncModuleLoopText);
      } else {
        Writeline(SyncModuleText);
        skipEventYield := true;
      }
      if !skipEventYield {
        Indent();
        SimpleWrite("event", frame);
        Outdent(1);
      }
    }

    method VisitInclude(node: IncludeNode, frame: Frame)
      modifies this
      ensures State() == IncludeStep(cfg, old(State()), frame, node)
    {
      ghost var start := lines;
      ghost var base := indentation;
      if node.ignoreMissing {
        Writeline("try:");
        Indent();
      }
      var funcName := LookupName(node.template);
      WriteTemplateCall("template = " + ChooseAsync(cfg, "await ", "") + "environment." + funcName + "(", node.template);
      ghost var lookup := Line(if node.ignoreMissing then base + 1 else base, LookupLineText(cfg, node.template));
      assert lines == start + (if node.ignoreMissing then [Line(base, "try:"), lookup] else [lookup]);
      if node.ignoreMissing {
        Outdent(1);
        Writeline("except TemplateNotFound:");
        Indent();
        Writeline("pass");
        Outdent(1);
        Writeline("else:");
        Indent();
      }
      ghost var bodyStart := lines;
      assert bodyStart + IncludeBody(cfg, frame, node, indentation) == start + IncludeLines(cfg, frame, node, base);
      WriteIncludeBody(node, frame);
      if node.ignoreMissing {
        Outdent(1);
      }
    }

    method ImportCommon(node: ImportNode, frame: Frame)
      modifies this
      ensures State() == ImportStep(cfg, old(State()), frame, node)
    {
      var a := ChooseAsync(cfg, "await ", "") + "environment.get_template(";
      var b := ", " + cfg.nameRepr + ").";
      var c: string;
      if node.withContext {
        var fName := "make_module" + ChooseAsync(cfg, "_async", "");
        c := fName + "(context.get_all(), True, " + frame.localContext + ")";
      } else {
        c := "_get_default_module" + ChooseAsync(cfg, "_async", "") + "(context)";
      }
      Write(a);
      AppendTwice(old(lines), a, node.template.code);
      Write(node.template.code);
      AppendTwice(old(lines), a + node.template.code, b);
      Write(b);
      AppendTwice(old(lines), a + node.template.code + b, c);
      Write(c);
      assert a + node.template.code + b + c == ImportText(cfg, frame, node);
    }
  }
}
