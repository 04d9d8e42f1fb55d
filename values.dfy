/**
 * The parsed configuration document, as the HCL parser hands it to the audit:
 * nested dictionaries, lists, strings and scalars, with Python's truthiness.
 */
module Values {
  import opened Wrappers

  /**
   * A Python dictionary is an association list in insertion order, since the
   * order of a dictionary's items fixes the order in which the audit reports.
   * `VOther` stands for a number, a Boolean or None and keeps only whether
   * Python's `bool()` of it is true.
   */
  datatype Value =
    | VMap(entries: seq<(string, Value)>)
    | VList(items: seq<Value>)
    | VStr(s: string)
    | VOther(truthy: bool)

  /** Python's `bool(v)`: an empty dictionary, list or string is false. */
  predicate Truthy(v: Value) {
    match v
    case VMap(es) => es != []
    case VList(xs) => xs != []
    case VStr(s) => s != []
    case VOther(b) => b
  }

  /** The value stored under `key`: the first entry with that key. */
  function Lookup(es: seq<(string, Value)>, key: string): Option<Value>
    decreases |es|
  {
    if es == [] then None
    else if es[0].0 == key then Some(es[0].1)
    else Lookup(es[1..], key)
  }

  /** Lookup finds a key exactly when some entry has it, and then it is the value of the first such entry. */
  lemma {:induction false} LookupFirst(es: seq<(string, Value)>, key: string)
    ensures Lookup(es, key).Some? <==> exists k :: 0 <= k < |es| && es[k].0 == key
    ensures Lookup(es, key).Some? ==>
              exists k :: 0 <= k < |es| && es[k] == (key, Lookup(es, key).value)
                          && forall j :: 0 <= j < k ==> es[j].0 != key
    decreases |es|
  {
    if es != [] && es[0].0 != key {
      LookupFirst(es[1..], key);
      assert forall k :: 1 <= k < |es| ==> es[k] == es[1..][k - 1];
      if Lookup(es, key).Some? {
        var k :| 0 <= k < |es[1..]| && es[1..][k] == (key, Lookup(es, key).value)
                 && forall j :: 0 <= j < k ==> es[1..][j].0 != key;
        assert es[k + 1] == (key, Lookup(es, key).value);
        assert forall j :: 1 <= j < k + 1 ==> es[j].0 != key;
      }
      if exists k :: 0 <= k < |es| && es[k].0 == key {
        var k :| 0 <= k < |es| && es[k].0 == key;
        assert es[1..][k - 1].0 == key;
      }
    }
  }

  /** A dictionary with one entry. */
  lemma LookupOne(k: string, v: Value, key: string)
    ensures Lookup([(k, v)], key) == if k == key then Some(v) else None
  {
    if k != key {
      assert [(k, v)][1..] == [];
    }
  }

  /** Python's `key in d` for a dictionary `d`. */
  predicate HasKey(d: Value, key: string) {
    d.VMap? && Lookup(d.entries, key).Some?
  }

  /** Python's `d[key]`, for a key that is present. */
  function Get(d: Value, key: string): Value
    requires HasKey(d, key)
  {
    Lookup(d.entries, key).value
  }

  /** `d[key]` is the value of the first entry with that key, and `key in d` holds exactly when one exists. */
  lemma GetFirst(d: Value, key: string)
    requires d.VMap?
    ensures HasKey(d, key) <==> exists k :: 0 <= k < |d.entries| && d.entries[k].0 == key
    ensures HasKey(d, key) ==>
              exists k :: 0 <= k < |d.entries| && d.entries[k] == (key, Get(d, key))
                          && forall j :: 0 <= j < k ==> d.entries[j].0 != key
  {
    LookupFirst(d.entries, key);
  }

  /** Python's `d.get(key, default)` on a dictionary `d`. */
  function GetOr(d: Value, key: string, default: Value): (r: Value)
    requires d.VMap?
    ensures HasKey(d, key) ==> r == Get(d, key)
    ensures !HasKey(d, key) ==> r == default
  {
    Lookup(d.entries, key).GetOr(default)
  }
}
