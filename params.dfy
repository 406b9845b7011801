/**
 * The two ways the wrappers fill a query or body dictionary.
 *
 * A chain of conditional insertions (`if x: params['k'] = x`, repeated for
 * each optional argument) is written as a table of `Insertion` rows, one row
 * per `if` statement in source order, and carried out by the loop `Insert`.
 * `Apply` is its specification; `LemmaApplyAt` gives, for any single row, the
 * fact the source line promises about its key.
 *
 * A dictionary comprehension that drops `None` values
 * (`{k: v for k, v in d.items() if v is not None}`) is the function
 * `KeepNotNone` over the dictionary literal's key/value pairs.
 */
module Params {
  import opened Values

  /** One `if cond: params[key] = value` statement of a builder. */
  datatype Insertion = Insertion(key: string, cond: bool, value: Value)

  /** `if value is not None: params[key] = value` */
  function IfNotNone(key: string, value: Value): (row: Insertion)
    ensures row.key == key && row.value == value && (row.cond <==> value != Null)
  {
    Insertion(key, value != Null, value)
  }

  /** `if value: params[key] = value` */
  function IfTruthy(key: string, value: Value): (row: Insertion)
    ensures row.key == key && row.value == value && (row.cond <==> Truthy(value))
  {
    Insertion(key, Truthy(value), value)
  }

  /** `params[key] = value`, unconditionally. */
  function Always(key: string, value: Value): (row: Insertion)
    ensures row.key == key && row.value == value && row.cond
  {
    Insertion(key, true, value)
  }

  /** The dictionary after the rows of `t` have run, in order, on `m`. */
  function Apply(m: map<string, Value>, t: seq<Insertion>): map<string, Value>
    decreases |t|
  {
    if t == [] then m
    else
      var before := Apply(m, t[..|t| - 1]);
      var last := t[|t| - 1];
      if last.cond then before[last.key := last.value] else before
  }

  predicate KeyUniqueAt(t: seq<Insertion>, i: int)
    requires 0 <= i < |t|
  {
    forall j :: 0 <= j < |t| && j != i ==> t[j].key != t[i].key
  }

  /**
   * A row whose key no other row writes decides that key: it is present iff
   * the row's condition held (or it was there before), with the row's value.
   */
  lemma {:induction false} LemmaApplyAt(m: map<string, Value>, t: seq<Insertion>, i: int)
    requires 0 <= i < |t| && KeyUniqueAt(t, i)
    ensures t[i].key in Apply(m, t) <==> t[i].cond || t[i].key in m
    ensures t[i].cond ==> Apply(m, t)[t[i].key] == t[i].value
    ensures !t[i].cond && t[i].key in m ==> Apply(m, t)[t[i].key] == m[t[i].key]
    decreases |t|
  {
    if i < |t| - 1 {
      var t' := t[..|t| - 1];
      assert t'[i] == t[i];
      assert KeyUniqueAt(t', i) by {
        forall j | 0 <= j < |t'| && j != i
          ensures t'[j].key != t'[i].key
        {
          assert t'[j] == t[j];
        }
      }
      LemmaApplyAt(m, t', i);
    } else {
      LemmaApplyOutside(m, t[..|t| - 1], t[i].key);
    }
  }

  /** A key no row writes is left as it was. */
  lemma {:induction false} LemmaApplyOutside(m: map<string, Value>, t: seq<Insertion>, k: string)
    requires forall j :: 0 <= j < |t| ==> t[j].key != k
    ensures k in Apply(m, t) <==> k in m
    ensures k in m ==> Apply(m, t)[k] == m[k]
    decreases |t|
  {
    if t != [] {
      var t' := t[..|t| - 1];
      assert forall j :: 0 <= j < |t'| ==> t'[j] == t[j];
      LemmaApplyOutside(m, t', k);
    }
  }

  /** The keys written by the rows whose condition held. */
  function Written(t: seq<Insertion>): set<string>
  {
    set j | 0 <= j < |t| && t[j].cond :: t[j].key
  }

  /** The result holds exactly the old keys and the keys of rows whose condition held. */
  lemma {:induction false} LemmaApplyKeys(m: map<string, Value>, t: seq<Insertion>)
    ensures Apply(m, t).Keys == m.Keys + Written(t)
    decreases |t|
  {
    if t != [] {
      var t' := t[..|t| - 1];
      LemmaApplyKeys(m, t');
      assert forall j :: 0 <= j < |t'| ==> t'[j] == t[j];
      var last := t[|t| - 1];
      if last.cond {
        assert Written(t) == Written(t') + {last.key};
      } else {
        assert Written(t) == Written(t');
      }
    }
  }

  /** The keys of the rows, in order. */
  function KeysOf(t: seq<Insertion>): (keys: seq<string>)
    ensures |keys| == |t|
    ensures forall i :: 0 <= i < |t| ==> keys[i] == t[i].key
  {
    seq(|t|, i requires 0 <= i < |t| => t[i].key)
  }

  predicate Distinct(keys: seq<string>)
  {
    forall i, j :: 0 <= i < j < |keys| ==> keys[i] != keys[j]
  }

  /** No name of `a` is a name of `b`. */
  predicate Apart(a: seq<string>, b: seq<string>)
  {
    forall i, j :: 0 <= i < |a| && 0 <= j < |b| ==> a[i] != b[j]
  }

  /** Two lists of distinct names that share no name concatenate to a list of distinct names. */
  lemma LemmaDistinctHalves(a: seq<string>, b: seq<string>)
    requires Distinct(a) && Distinct(b) && Apart(a, b)
    ensures Distinct(a + b)
  {
    forall i, j | 0 <= i < j < |a + b|
      ensures (a + b)[i] != (a + b)[j]
    {
      if j < |a| {
      } else if i >= |a| {
        assert (a + b)[i] == b[i - |a|] && (a + b)[j] == b[j - |a|];
      } else {
        assert (a + b)[i] == a[i] && (a + b)[j] == b[j - |a|];
      }
    }
  }

  /**
   * When no two rows write the same key, every row decides its own key:
   * present iff its condition held (or it was there before), with its value.
   */
  lemma LemmaApplyDistinct(m: map<string, Value>, t: seq<Insertion>)
    requires Distinct(KeysOf(t))
    ensures forall i :: 0 <= i < |t| ==> (t[i].key in Apply(m, t) <==> t[i].cond || t[i].key in m)
    ensures forall i :: 0 <= i < |t| && t[i].cond ==> Apply(m, t)[t[i].key] == t[i].value
  {
    forall i | 0 <= i < |t|
      ensures t[i].key in Apply(m, t) <==> t[i].cond || t[i].key in m
      ensures t[i].cond ==> Apply(m, t)[t[i].key] == t[i].value
    {
      assert KeyUniqueAt(t, i) by {
        forall j | 0 <= j < |t| && j != i
          ensures t[j].key != t[i].key
        {
          if j < i {
            assert KeysOf(t)[j] != KeysOf(t)[i];
          } else {
            assert KeysOf(t)[i] != KeysOf(t)[j];
          }
        }
      }
      LemmaApplyAt(m, t, i);
    }
  }

  /** Runs the rows of `t` on `m`, one `if` at a time. */
  method Insert(m: map<string, Value>, t: seq<Insertion>) returns (params: map<string, Value>)
    ensures params == Apply(m, t)
  {
    params := m;
    var i := 0;
    while i < |t|
      invariant 0 <= i <= |t|
      invariant params == Apply(m, t[..i])
    {
      assert t[..i + 1][..i] == t[..i];
      if t[i].cond {
        params := params[t[i].key := t[i].value];
      }
      i := i + 1;
    }
    assert t[..|t|] == t;
  }

  // ---------------------------------------------------------------------------
  // Keyword arguments and the None-dropping comprehension

  /** A dictionary literal as its key/value pairs, in source order. */
  type Arg = (string, Value)

  predicate DistinctNames(args: seq<Arg>)
  {
    forall i, j :: 0 <= i < j < |args| ==> args[i].0 != args[j].0
  }

  function Names(args: seq<Arg>): set<string>
  {
    set i | 0 <= i < |args| :: args[i].0
  }

  /** Pairs the names of a dictionary literal with the argument values. */
  function Zip(names: seq<string>, values: seq<Value>): (args: seq<Arg>)
    requires |names| == |values|
    ensures |args| == |names|
    ensures forall i :: 0 <= i < |args| ==> args[i] == (names[i], values[i])
  {
    seq(|names|, i requires 0 <= i < |names| => (names[i], values[i]))
  }

  /**
   * The arguments of a builder whose first field is required: the required
   * string first, then the optional arguments in table order.
   */
  function RequiredFirst(required: string, optional: seq<Value>): (all: seq<Value>)
    ensures |all| == |optional| + 1 && all[0] == Str(required) && all[1..] == optional
  {
    [Str(required)] + optional
  }

  /**
   * `{k: v for k, v in args.items() if v is not None}`: every argument that is
   * not None is kept under its own name, including False, 0, "" and [];
   * nothing else is present.
   */
  function KeepNotNone(args: seq<Arg>): (r: map<string, Value>)
    requires DistinctNames(args)
    ensures forall i :: 0 <= i < |args| ==> (args[i].0 in r <==> args[i].1 != Null)
    ensures forall i :: 0 <= i < |args| && args[i].1 != Null ==> r[args[i].0] == args[i].1
    ensures r.Keys <= Names(args)
    ensures forall k :: k in r ==> r[k] != Null
  {
    map i | 0 <= i < |args| && args[i].1 != Null :: args[i].0 := args[i].1
  }

  /** One `if value is not None` row per argument, in order. */
  function NotNoneRows(args: seq<Arg>): (t: seq<Insertion>)
    ensures |t| == |args|
    ensures forall i :: 0 <= i < |args| ==> t[i] == IfNotNone(args[i].0, args[i].1)
  {
    seq(|args|, i requires 0 <= i < |args| => IfNotNone(args[i].0, args[i].1))
  }

  /**
   * A chain (or loop) of `if v is not None: params[k] = v` statements run on
   * `m` gives `m` updated with the None-dropping comprehension over the same pairs.
   */
  lemma LemmaNotNoneRows(m: map<string, Value>, args: seq<Arg>)
    requires DistinctNames(args)
    ensures Apply(m, NotNoneRows(args)) == m + KeepNotNone(args)
  {
    var t := NotNoneRows(args);
    var p := Apply(m, t);
    var r := m + KeepNotNone(args);
    forall k | k in p || k in r
      ensures k in p && k in r && p[k] == r[k]
    {
      if i :| 0 <= i < |args| && args[i].0 == k {
        assert KeyUniqueAt(t, i) by {
          forall j | 0 <= j < |t| && j != i
            ensures t[j].key != t[i].key
          {
            assert t[j].key == args[j].0;
            if j < i {
              assert args[j].0 != args[i].0;
            } else {
              assert args[i].0 != args[j].0;
            }
          }
        }
        LemmaApplyAt(m, t, i);
      } else {
        assert k !in KeepNotNone(args);
        LemmaApplyOutside(m, t, k);
      }
    }
  }

  /** Distinct names stay distinct when paired with values. */
  lemma LemmaZipDistinct(names: seq<string>, values: seq<Value>)
    requires |names| == |values| && Distinct(names)
    ensures DistinctNames(Zip(names, values))
    ensures Names(Zip(names, values)) == set i | 0 <= i < |names| :: names[i]
  {
  }

  /** The filtered dictionary is empty exactly when every argument is None. */
  lemma LemmaKeepNotNoneEmpty(args: seq<Arg>)
    requires DistinctNames(args)
    ensures KeepNotNone(args) == map[] <==> forall i :: 0 <= i < |args| ==> args[i].1 == Null
  {
    var r := KeepNotNone(args);
    if r != map[] {
      var k :| k in r;
      assert k in Names(args);
      var i :| 0 <= i < |args| && args[i].0 == k;
      assert args[i].1 != Null;
    }
  }

  /**
   * `sent` is what the None-dropping comprehension over `names` and `values`
   * sends: exactly the names whose value is not None, each with its value.
   */
  predicate SentNotNone(sent: map<string, Value>, names: seq<string>, values: seq<Value>)
  {
    && |names| == |values|
    && (forall i :: 0 <= i < |names| ==>
          (names[i] in sent <==> values[i] != Null) && (values[i] != Null ==> sent[names[i]] == values[i]))
    && sent.Keys == set i | 0 <= i < |values| && values[i] != Null :: names[i]
  }

  /** The keys of the filtered dictionary are exactly the names whose value is not None. */
  lemma LemmaKeepNotNoneKeys(names: seq<string>, values: seq<Value>)
    requires |names| == |values| && Distinct(names)
    ensures DistinctNames(Zip(names, values))
    ensures KeepNotNone(Zip(names, values)).Keys == set i | 0 <= i < |values| && values[i] != Null :: names[i]
  {
    LemmaZipDistinct(names, values);
    var args := Zip(names, values);
    forall k | k in KeepNotNone(args)
      ensures k in set i | 0 <= i < |values| && values[i] != Null :: names[i]
    {
      var i :| 0 <= i < |args| && args[i].0 == k;
    }
  }

  // ---------------------------------------------------------------------------
  // Builders given as a table of keys and tests

  /** How one statement of a builder tests its argument and what it stores. */
  datatype Rule =
    | Unconditionally    // `params[k] = v`
    | WhenNotNone        // `if v is not None: params[k] = v`
    | WhenTruthy         // `if v: params[k] = v`
    | JoinedWhenTruthy   // `if v: params[k] = ','.join(v)`

  /** Whether the statement's test passes. */
  predicate Holds(rule: Rule, v: Value)
  {
    match rule
    case Unconditionally => true
    case WhenNotNone => v != Null
    case _ => Truthy(v)
  }

  /** A list of strings, or None: the arguments that are comma-joined. */
  predicate StringList(v: Value)
  {
    v == Null || (v.List? && forall k :: 0 <= k < |v.items| ==> v.items[k].Str?)
  }

  /**
   * The strings of a list of strings. The tools type their joined arguments
   * as lists of strings; anything else in such a list is read as "".
   */
  function Texts(v: Value): (texts: seq<string>)
    ensures StringList(v) && v.List? ==>
              |texts| == |v.items| && forall k :: 0 <= k < |texts| ==> v.items[k] == Str(texts[k])
  {
    if v.List? then seq(|v.items|, k requires 0 <= k < |v.items| => if v.items[k].Str? then v.items[k].s else "") else []
  }

  /** What the statement stores when its test passes. */
  function Sent(rule: Rule, v: Value): Value
  {
    if rule.JoinedWhenTruthy? then Str(Join(Texts(v))) else v
  }

  /** One row per statement of the table, in order. */
  function Rows(keys: seq<string>, rules: seq<Rule>, values: seq<Value>): (t: seq<Insertion>)
    requires |keys| == |rules| == |values|
    ensures |t| == |keys| && KeysOf(t) == keys
    ensures forall i :: 0 <= i < |t| ==> t[i] == Insertion(keys[i], Holds(rules[i], values[i]), Sent(rules[i], values[i]))
  {
    var t := seq(|keys|, i requires 0 <= i < |keys| => Insertion(keys[i], Holds(rules[i], values[i]), Sent(rules[i], values[i])));
    assert KeysOf(t) == keys;
    t
  }

  /**
   * Runs a builder table: every key whose test passes is present with what
   * its statement stores, and no other key is present.
   */
  method Build(keys: seq<string>, rules: seq<Rule>, values: seq<Value>) returns (params: map<string, Value>)
    requires |keys| == |rules| == |values| && Distinct(keys)
    ensures forall i :: 0 <= i < |keys| ==>
              (keys[i] in params <==> Holds(rules[i], values[i]))
              && (Holds(rules[i], values[i]) ==> params[keys[i]] == Sent(rules[i], values[i]))
    ensures params.Keys == set i | 0 <= i < |keys| && Holds(rules[i], values[i]) :: keys[i]
  {
    var t := Rows(keys, rules, values);
    params := Insert(map[], t);
    LemmaApplyDistinct(map[], t);
    LemmaApplyKeys(map[], t);
    assert Written(t) == set i | 0 <= i < |keys| && Holds(rules[i], values[i]) :: keys[i];
  }
}
