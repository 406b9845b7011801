/**
 * Python values as the GitLab tool wrappers receive them as arguments and
 * return them as results, with the few conversions the wrappers apply to
 * them: truthiness, `str(b).lower()` for booleans, `str(i)` for integers,
 * `','.join(...)` and ASCII lower-casing.
 */
module Values {

  datatype Option<T> = None | Some(value: T)

  newtype byte = x: int | 0 <= x < 256

  /** A Python value. `Null` is Python's `None`. */
  datatype Value =
    | Null
    | Bool(b: bool)
    | Int(i: int)
    | Str(s: string)
    | List(items: seq<Value>)
    | Dict(fields: map<string, Value>)
    | Bytes(data: seq<byte>)

  /** Python truthiness: `if v:` */
  predicate Truthy(v: Value)
  {
    match v
    case Null => false
    case Bool(b) => b
    case Int(i) => i != 0
    case Str(s) => |s| > 0
    case List(items) => |items| > 0
    case Dict(fields) => |fields| > 0
    case Bytes(data) => |data| > 0
  }

  /**
   * Truthiness of an optional string argument (`if arg:` on a `str`
   * defaulting to None): given and non-empty.
   */
  predicate Given(arg: Option<string>)
  {
    arg.Some? && |arg.value| > 0
  }

  /** Every truthy value is not None; the converse fails for False, 0, "", [] and {}. */
  lemma LemmaTruthyNotNull(v: Value)
    ensures Truthy(v) ==> v != Null
    ensures v == Bool(false) || v == Int(0) || v == Str("") || v == List([]) || v == Dict(map[])
            ==> v != Null && !Truthy(v)
  {
  }

  /** `str(b).lower()`: the JSON spelling of a Python bool. */
  function BoolText(b: bool): (t: string)
    ensures t == "true" || t == "false"
    ensures t == "true" <==> b
  {
    if b then "true" else "false"
  }

  /** Reads back a lowercase boolean spelling. */
  function ParseBool(t: string): Option<bool>
  {
    if t == "true" then Some(true) else if t == "false" then Some(false) else None
  }

  lemma LemmaBoolTextRoundTrip(b: bool)
    ensures ParseBool(BoolText(b)) == Some(b)
  {
  }

  // ---------------------------------------------------------------------------
  // Decimal text: Python's str() on an int

  predicate IsDigit(c: char) { '0' <= c <= '9' }

  predicate AllDigits(t: string) { forall k :: 0 <= k < |t| ==> IsDigit(t[k]) }

  function DigitChar(d: int): (c: char)
    requires 0 <= d < 10
    ensures IsDigit(c) && c as int - '0' as int == d
  {
    (d + '0' as int) as char
  }

  /** The shortest decimal spelling of a natural number. */
  function NatText(n: nat): (t: string)
    ensures |t| > 0 && AllDigits(t)
    ensures |t| > 1 ==> t[0] != '0'
    decreases n
  {
    if n < 10 then [DigitChar(n)] else NatText(n / 10) + [DigitChar(n % 10)]
  }

  /** `str(i)` for a Python int. */
  function DecimalText(i: int): (t: string)
    ensures |t| > 0
    ensures ',' !in t
  {
    if i < 0 then "-" + NatText(-i) else NatText(i)
  }

  function ParseNat(t: string): nat
    requires AllDigits(t)
  {
    if |t| == 0 then 0 else ParseNat(t[..|t| - 1]) * 10 + (t[|t| - 1] as int - '0' as int)
  }

  /** Reads back an optionally signed decimal integer, as Python's int() does on such text. */
  function ParseInt(t: string): Option<int>
  {
    if |t| > 1 && t[0] == '-' && AllDigits(t[1..]) then Some(0 - ParseNat(t[1..]) as int)
    else if |t| > 0 && AllDigits(t) then Some(ParseNat(t))
    else None
  }

  lemma {:induction false} LemmaParseNatText(n: nat)
    ensures ParseNat(NatText(n)) == n
    decreases n
  {
    var t := NatText(n);
    if n >= 10 {
      LemmaParseNatText(n / 10);
      assert t[..|t| - 1] == NatText(n / 10);
    }
  }

  lemma LemmaDecimalRoundTrip(i: int)
    ensures ParseInt(DecimalText(i)) == Some(i)
  {
    var t := DecimalText(i);
    if i < 0 {
      assert t[1..] == NatText(-i);
      LemmaParseNatText(-i);
      assert t[0] == '-' && AllDigits(t[1..]);
    } else {
      LemmaParseNatText(i);
      assert IsDigit(t[0]);
    }
  }

  // ---------------------------------------------------------------------------
  // ','.join(...) and its inverse

  /** `','.join(parts)` */
  function Join(parts: seq<string>): string
  {
    if |parts| == 0 then "" else if |parts| == 1 then parts[0] else parts[0] + "," + Join(parts[1..])
  }

  /** `text.split(',')`: never empty, one more part than the text has commas. */
  function Split(t: string): (parts: seq<string>)
    ensures |parts| >= 1
    decreases |t|
  {
    if |t| == 0 then [""]
    else
      var rest := Split(t[1..]);
      if t[0] == ',' then [""] + rest else [[t[0]] + rest[0]] + rest[1..]
  }

  lemma {:induction false} LemmaSplitPlain(a: string)
    requires ',' !in a
    ensures Split(a) == [a]
    decreases |a|
  {
    if |a| > 0 {
      LemmaSplitPlain(a[1..]);
      assert [a[0]] + a[1..] == a;
    }
  }

  lemma {:induction false} LemmaSplitCons(a: string, b: string)
    requires ',' !in a
    ensures Split(a + "," + b) == [a] + Split(b)
    decreases |a|
  {
    if |a| == 0 {
      assert a + "," + b == [','] + b;
      assert (a + "," + b)[1..] == b;
    } else {
      var t := a + "," + b;
      assert t[1..] == a[1..] + "," + b;
      LemmaSplitCons(a[1..], b);
      assert [a[0]] + a[1..] == a;
    }
  }

  /** Joining comma-free parts and splitting again gives the parts back. */
  lemma {:induction false} LemmaJoinSplit(parts: seq<string>)
    requires |parts| > 0
    requires forall k :: 0 <= k < |parts| ==> ',' !in parts[k]
    ensures Split(Join(parts)) == parts
    decreases |parts|
  {
    if |parts| == 1 {
      LemmaSplitPlain(parts[0]);
    } else {
      LemmaJoinSplit(parts[1..]);
      LemmaSplitCons(parts[0], Join(parts[1..]));
      assert [parts[0]] + parts[1..] == parts;
    }
  }

  /** `map(str, ids)` */
  function Decimals(ids: seq<int>): (texts: seq<string>)
    ensures |texts| == |ids|
    ensures forall k :: 0 <= k < |ids| ==> texts[k] == DecimalText(ids[k])
  {
    seq(|ids|, k requires 0 <= k < |ids| => DecimalText(ids[k]))
  }

  /** `','.join(map(str, ids))`: comma-joined decimal ids. */
  function JoinIds(ids: seq<int>): string
  {
    Join(Decimals(ids))
  }

  /** Reads a comma-joined id list back. */
  function ParseIds(t: string): Option<seq<int>>
  {
    ParseAll(Split(t))
  }

  function ParseAll(texts: seq<string>): Option<seq<int>>
  {
    if |texts| == 0 then Some([])
    else
      match (ParseInt(texts[0]), ParseAll(texts[1..]))
      case (Some(i), Some(rest)) => Some([i] + rest)
      case _ => None
  }

  lemma {:induction false} LemmaParseAllDecimals(ids: seq<int>)
    ensures ParseAll(Decimals(ids)) == Some(ids)
    decreases |ids|
  {
    if |ids| > 0 {
      LemmaDecimalRoundTrip(ids[0]);
      assert Decimals(ids)[1..] == Decimals(ids[1..]);
      LemmaParseAllDecimals(ids[1..]);
      assert [ids[0]] + ids[1..] == ids;
    }
  }

  /**
   * A non-empty id list survives the comma-joined decimal encoding: the ids
   * are recovered exactly, in order. (An empty list is sent as "".)
   */
  lemma LemmaIdsRoundTrip(ids: seq<int>)
    requires |ids| > 0
    ensures ParseIds(JoinIds(ids)) == Some(ids)
    ensures JoinIds([]) == ""
  {
    LemmaJoinSplit(Decimals(ids));
    LemmaParseAllDecimals(ids);
  }

  // ---------------------------------------------------------------------------
  // ASCII lower-casing

  function LowerChar(c: char): char
  {
    if 'A' <= c <= 'Z' then (c as int - 'A' as int + 'a' as int) as char else c
  }

  /** `s.lower()` on ASCII letters; every other character is kept. */
  function Lower(s: string): (r: string)
    ensures |r| == |s|
    ensures forall k :: 0 <= k < |s| ==> r[k] == LowerChar(s[k])
  {
    if |s| == 0 then "" else [LowerChar(s[0])] + Lower(s[1..])
  }

  /** Lower-casing is idempotent and leaves no upper-case ASCII letter. */
  lemma LemmaLowerIdempotent(s: string)
    ensures Lower(Lower(s)) == Lower(s)
    ensures forall k :: 0 <= k < |s| ==> !('A' <= Lower(s)[k] <= 'Z')
  {
  }
}
