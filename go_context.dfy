/**
 * Go's `context.Context` as far as `context.WithValue` and `ctx.Value` go: a
 * chain of key/value bindings, looked up innermost first. Go compares keys by
 * dynamic type and value, so a key records the name of its defining type.
 */
module GoContext {
  import opened Wrappers

  datatype Key = Key(typeName: string, name: string)

  /** The dynamic values this system stores in contexts. */
  datatype Value = StringValue(s: string) | Int64Value(i: int)

  datatype Context = Background | WithValue(parent: Context, key: Key, val: Value)

  /** `ctx.Value(key)`: the innermost binding of `key`, or nil. */
  function Lookup(ctx: Context, key: Key): (r: Option<Value>)
    ensures ctx.Background? ==> r.None?
    ensures ctx.WithValue? && ctx.key == key ==> r == Some(ctx.val)
  {
    match ctx
    case Background => None
    case WithValue(parent, k, v) => if k == key then Some(v) else Lookup(parent, key)
  }

  /** `v, ok := ctx.Value(key).(string)`. */
  function StringAt(ctx: Context, key: Key): (r: (string, bool))
    ensures r.1 <==> Lookup(ctx, key).Some? && Lookup(ctx, key).value.StringValue?
    ensures r.1 ==> r.0 == Lookup(ctx, key).value.s
    ensures !r.1 ==> r.0 == ""
  {
    match Lookup(ctx, key)
    case Some(StringValue(s)) => (s, true)
    case _ => ("", false)
  }

  /** `v, ok := ctx.Value(key).(int64)`. */
  function Int64At(ctx: Context, key: Key): (r: (int, bool))
    ensures r.1 <==> Lookup(ctx, key).Some? && Lookup(ctx, key).value.Int64Value?
    ensures r.1 ==> r.0 == Lookup(ctx, key).value.i
    ensures !r.1 ==> r.0 == 0
  {
    match Lookup(ctx, key)
    case Some(Int64Value(i)) => (i, true)
    case _ => (0, false)
  }

  /** Binding one key leaves every other key's lookup as it was. */
  lemma LookupOther(ctx: Context, k: Key, v: Value, other: Key)
    requires other != k
    ensures Lookup(WithValue(ctx, k, v), other) == Lookup(ctx, other)
  {
  }
}
