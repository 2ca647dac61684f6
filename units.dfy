/**
 * Template units: what loading a template produces and what the caches hold.  Compiled
 * code is abstract; it carries the template's name and its table of block render
 * functions, which stand for themselves by an identifier.
 */
module Units {
  import opened Wrappers
  import opened Values

  /** A block render function, by identity. */
  type BlockFn = nat

  datatype Code = Code(id: nat, name: string, blocks: map<string, BlockFn>)

  /** An executable template.  Only its `globals` are updated after creation. */
  class Template {
    const code: Code
    const name: string
    const blocks: map<string, BlockFn>
    /** The loader's up-to-date check, by identity; `None` means always up to date. */
    const uptodate: Option<nat>
    var globals: Context

    /** `Template.from_code(environment, code, globals, uptodate)`. */
    constructor FromCode(code: Code, globals: Context, uptodate: Option<nat>)
      ensures this.code == code && name == code.name && blocks == code.blocks
      ensures this.globals == globals && this.uptodate == uptodate
    {
      this.code := code;
      this.name := code.name;
      this.blocks := code.blocks;
      this.uptodate := uptodate;
      this.globals := globals;
    }
  }

  /** `await template.is_up_to_date`.  Jinja's property is `True` for a template without a
      check, and `True` cannot be awaited; otherwise it is what the check returns, which can
      be awaited only when the check is a coroutine function.  `checks` gives, per check, the
      awaited answer, or `None` when the check's result cannot be awaited; `None` here is the
      `TypeError` the `await` raises. */
  function AwaitUpToDate(t: Template, checks: nat -> Option<bool>): Option<bool> {
    if t.uptodate.None? then None else checks(t.uptodate.value)
  }
}
