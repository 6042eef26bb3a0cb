/**
 * The parameter dictionaries the tools build and hand to `api_call`, and the
 * two omission rules the tools use for optional arguments: "omit if falsy"
 * (`if x:`) and "omit if None" (`if x is not None:`).
 */
module ToolParams {
  import opened Wrappers

  /** A tool's parameter dictionary: upstream query key to value (`None` for Python's `None`). */
  type ParamMap = map<string, Option<string>>

  /** Python truthiness of an `Optional[str]`: `None` and `""` are both falsy. */
  predicate Truthy(v: Option<string>)
  {
    v.Some? && v.value != ""
  }

  /** The entry `key: v` when `v` is truthy, nothing otherwise (`if v: params[key] = v`). */
  function WhenTruthy(key: string, v: Option<string>): (m: ParamMap)
    ensures key in m <==> Truthy(v)
    ensures m.Keys <= {key}
    ensures key in m ==> m[key] == v
  {
    if Truthy(v) then map[key := v] else map[]
  }

  /** Every entry of `p` has a value: nothing in it is `None`. */
  predicate AllPresent(p: ParamMap)
  {
    forall k :: k in p ==> p[k].Some?
  }

  /** A dictionary literal of strings, as a parameter dictionary: every value present. */
  function FromStrings(m: map<string, string>): (p: ParamMap)
    ensures p.Keys == m.Keys
    ensures forall k :: k in m ==> p[k] == Some(m[k])
    ensures AllPresent(p)
  {
    map k | k in m :: Some(m[k])
  }

  /**
   * A tool's dictionary literal split in two: the routing entries `module`,
   * `action` and `chainid` every tool sends, and the tool's own arguments.
   * The tools never use a routing key for an argument, so the union is the
   * literal.
   */
  function Routed(moduleName: string, action: string, chainid: string, args: map<string, string>): (p: ParamMap)
    ensures "module" in p && p["module"] == Some(moduleName)
    ensures "action" in p && p["action"] == Some(action)
    ensures "chainid" in p && p["chainid"] == Some(chainid)
    ensures AllPresent(p)
  {
    FromStrings(args) + map["module" := Some(moduleName), "action" := Some(action), "chainid" := Some(chainid)]
  }

  /** A union of two dictionaries without `None` values has none either. */
  lemma UnionAllPresent(a: ParamMap, b: ParamMap)
    requires AllPresent(a) && AllPresent(b)
    ensures AllPresent(a + b)
  {
  }

  /** The entries of `m` whose value is not `None`. */
  function KeepPresent(m: ParamMap): (r: ParamMap)
    ensures forall k :: k in r <==> k in m && m[k].Some?
    ensures forall k :: k in r ==> r[k] == m[k]
    ensures AllPresent(r)
  {
    map k | k in m && m[k].Some? :: m[k]
  }

  /** Writing an entry after a union is writing it into the right-hand side. */
  lemma UnionUpdate(a: ParamMap, b: ParamMap, key: string, v: Option<string>)
    ensures (a + b)[key := v] == a + b[key := v]
  {
  }

  /** Filtering a dictionary extended by one new entry: the entry is kept iff it is not `None`. */
  lemma KeepPresentExtend(m: ParamMap, key: string, v: Option<string>)
    requires key !in m
    ensures KeepPresent(m[key := v]) == if v.Some? then KeepPresent(m)[key := v] else KeepPresent(m)
  {
  }

  /**
   * The loop `for key, value in optional.items(): if value is not None:
   * params[key] = value`, which mutates `params` in place.
   */
  method AddPresent(params: ParamMap, optional: ParamMap) returns (r: ParamMap)
    ensures r == params + KeepPresent(optional)
  {
    r := params;
    var todo := optional.Keys;
    while todo != {}
      invariant todo <= optional.Keys
      invariant r == params + map k | k in optional && k !in todo && optional[k].Some? :: optional[k]
      decreases todo
    {
      var key :| key in todo;
      if optional[key].Some? {
        r := r[key := optional[key]];
      }
      todo := todo - {key};
    }
  }
}
