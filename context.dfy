/** Extraction of the fixed context attributes (user, request and session
    identifiers) from a Go context.Context. */
module ContextValues {
  import opened Wrappers

  /** The dynamic type of a context key. Go compares interface keys by type
      and value, and extractContextValues looks up keys of its own,
      function-local string type; every key stored by code outside that
      function has some other type. */
  datatype KeyType = ExtractorKey | ForeignKey(typeName: string)

  datatype ContextKey = ContextKey(keyType: KeyType, text: string)

  /** An attribute value: Go's interface{}, restricted to the kinds the
      model distinguishes. `Nil` is the nil interface; `Unsupported` stands
      for values encoding/json refuses (channels, functions, complex
      numbers), named by their Go type. */
  datatype Value = Nil | Str(s: string) | Int(i: int) | Bool(b: bool) | Unsupported(typeName: string)

  /** A context.Context: None is a nil context; otherwise the values it
      carries, by key (a key it does not carry answers nil). */
  type Context = Option<map<ContextKey, Value>>

  /** `ctx.Value(key)` on a non-nil context. */
  function ValueOf(values: map<ContextKey, Value>, key: ContextKey): Value {
    if key in values then values[key] else Nil
  }

  /** The keys looked up, in lookup order. */
  const ContextKeys: seq<string> := ["user_id", "request_id", "session_id"]

  /** The value the extractor sees for attribute name `k`. */
  function Lookup(values: map<ContextKey, Value>, k: string): Value {
    ValueOf(values, ContextKey(ExtractorKey, k))
  }

  /** The attributes that the extraction yields for `ctx`, restricted to the
      first `n` keys of ContextKeys. */
  function AttributesUpTo(ctx: Context, n: nat): map<string, Value>
    requires n <= |ContextKeys|
  {
    match ctx
    case None => map[]
    case Some(values) =>
      map k | k in ContextKeys[..n] && Lookup(values, k) != Nil :: Lookup(values, k)
  }

  /** The attribute map extractContextValues returns. */
  function ContextAttributes(ctx: Context): (attrs: map<string, Value>)
    ensures ctx.None? ==> attrs == map[]
    ensures attrs.Keys <= {"user_id", "request_id", "session_id"}
    ensures forall k :: k in ContextKeys && ctx.Some? ==>
              (k in attrs <==> Lookup(ctx.value, k) != Nil)
    ensures forall k :: k in attrs ==> ctx.Some? && attrs[k] == Lookup(ctx.value, k)
  {
    assert ContextKeys[..|ContextKeys|] == ContextKeys;
    AttributesUpTo(ctx, |ContextKeys|)
  }

  /** extractContextValues: a nil context yields an empty map; otherwise each
      fixed key holding a non-nil value is copied, under its own name. */
  method ExtractContextValues(ctx: Context) returns (attributes: map<string, Value>)
    ensures attributes == ContextAttributes(ctx)
    ensures ctx.None? ==> attributes == map[]
    ensures attributes.Keys <= {"user_id", "request_id", "session_id"}
    ensures forall k :: k in ContextKeys && ctx.Some? ==>
              (k in attributes <==> Lookup(ctx.value, k) != Nil)
    ensures forall k :: k in attributes ==> ctx.Some? && attributes[k] == Lookup(ctx.value, k)
  {
    attributes := map[];
    if ctx.None? {
      return;
    }
    var values := ctx.value;
    for i := 0 to |ContextKeys|
      invariant attributes == AttributesUpTo(ctx, i)
    {
      var key := ContextKeys[i];
      var val := Lookup(values, key);
      if val != Nil {
        attributes := attributes[key := val];
      }
      assert ContextKeys[..i + 1] == ContextKeys[..i] + [key];
    }
    assert ContextKeys[..|ContextKeys|] == ContextKeys;
  }

  /** Values stored by outside code, under keys of any other type, are never
      found: such a context contributes no attributes. */
  lemma ForeignKeysNeverMatch(values: map<ContextKey, Value>)
    requires forall key :: key in values ==> key.keyType != ExtractorKey
    ensures ContextAttributes(Some(values)) == map[]
  {
    forall k | k in ContextKeys
      ensures Lookup(values, k) == Nil
    {
      assert ContextKey(ExtractorKey, k) !in values;
    }
  }
}
