/**
 * How `init` turns the registered engine options into setopt calls: the
 * option's identifier range decides how its string value is decoded, and
 * the options are visited in ascending identifier order, the order in which
 * an ordered map iterates.
 */
module OptionDecoding {
  import opened Engine

  const LongMin: int := -0x8000_0000_0000_0000
  const LongMax: int := 0x7fff_ffff_ffff_ffff

  // ---------------------------------------------------------------------
  // `strtol(s, NULL, 10)` on a C `long` of 64 bits

  /** The characters `isspace` accepts in the C locale. */
  predicate IsSpace(c: char)
  {
    c == ' ' || '\t' <= c <= '\r'
  }

  predicate IsDigit(c: char)
  {
    '0' <= c <= '9'
  }

  predicate AllDigits(s: string)
  {
    forall i :: 0 <= i < |s| ==> IsDigit(s[i])
  }

  function DigitValue(c: char): nat
    requires IsDigit(c)
  {
    c as int - '0' as int
  }

  function Digit(d: nat): (c: char)
    requires d < 10
    ensures IsDigit(c) && DigitValue(c) == d
  {
    ('0' as int + d) as char
  }

  /** What is left once the leading white space is skipped. */
  function SkipSpace(s: string): (r: string)
    ensures |r| <= |s| && r == s[|s| - |r|..]
    ensures forall i :: 0 <= i < |s| - |r| ==> IsSpace(s[i])
    ensures r == [] || !IsSpace(r[0])
  {
    if s != [] && IsSpace(s[0]) then SkipSpace(s[1..]) else s
  }

  /** The length of the longest prefix made of decimal digits. */
  function DigitRun(s: string): (n: nat)
    ensures n <= |s| && AllDigits(s[..n])
    ensures n < |s| ==> !IsDigit(s[n])
  {
    if s == [] || !IsDigit(s[0]) then 0 else 1 + DigitRun(s[1..])
  }

  /** The number a string of decimal digits denotes. */
  function DigitsValue(d: string): nat
    requires AllDigits(d)
  {
    if d == [] then 0 else DigitsValue(d[..|d| - 1]) * 10 + DigitValue(d[|d| - 1])
  }

  /** `strtol`'s answer to an out-of-range value: the nearest `long`. */
  function Clamp(v: int): (r: int)
    ensures LongMin <= r <= LongMax
    ensures LongMin <= v <= LongMax ==> r == v
  {
    if v < LongMin then LongMin else if v > LongMax then LongMax else v
  }

  /**
   * Skip white space, take an optional sign, then the longest run of digits;
   * no digits at all gives 0 and an out-of-range value saturates.
   */
  function ParseLong(s: string): (r: int)
    ensures LongMin <= r <= LongMax
  {
    var t := SkipSpace(s);
    var negative := t != [] && t[0] == '-';
    var u := if t != [] && (t[0] == '-' || t[0] == '+') then t[1..] else t;
    var v: int := DigitsValue(u[..DigitRun(u)]);
    Clamp(if negative then -v else v)
  }

  // ---------------------------------------------------------------------
  // Decimal text, the encoding of integer-valued options

  function NatDecimal(n: nat): (s: string)
    ensures s != [] && AllDigits(s)
  {
    if n < 10 then [Digit(n)] else NatDecimal(n / 10) + [Digit(n % 10)]
  }

  function Decimal(n: int): string
  {
    if n < 0 then "-" + NatDecimal(-n) else NatDecimal(n)
  }

  lemma {:induction false} DigitsValueOfNatDecimal(n: nat)
    ensures DigitsValue(NatDecimal(n)) == n
  {
    if n >= 10 {
      var s := NatDecimal(n);
      assert s[..|s| - 1] == NatDecimal(n / 10);
      DigitsValueOfNatDecimal(n / 10);
    }
  }

  lemma DigitRunOfAllDigits(s: string)
    requires AllDigits(s)
    ensures DigitRun(s) == |s|
  {
  }

  /** strtol reads back every `long` written in decimal. */
  lemma ParseLongOfDecimal(n: int)
    requires LongMin <= n <= LongMax
    ensures ParseLong(Decimal(n)) == n
  {
    var s := Decimal(n);
    var d := NatDecimal(if n < 0 then -n else n);
    assert !IsSpace(s[0]);
    assert SkipSpace(s) == s;
    var u := if n < 0 then s[1..] else s;
    assert u == d;
    DigitRunOfAllDigits(d);
    assert u[..DigitRun(u)] == d;
    DigitsValueOfNatDecimal(if n < 0 then -n else n);
  }

  // ---------------------------------------------------------------------
  // Decoding one option

  /**
   * The setting `init` passes for option `key` registered with `value`:
   * identifiers below the object-pointer range take a `long` ("true" is 1,
   * "false" is 0, anything else is read as decimal), identifiers below the
   * curl_off_t range take the string itself, and any other identifier is
   * not applied at all.
   */
  function DecodeOption(key: int, value: string): (r: Option<Setting>)
    ensures r.None? <==> key >= CurlOptTypeOffT
    ensures key < CurlOptTypeObjectPoint ==>
              r.Some? && r.value.Long? && LongMin <= r.value.n <= LongMax
    ensures CurlOptTypeObjectPoint <= key < CurlOptTypeOffT ==> r == Some(Text(value))
  {
    if key < CurlOptTypeObjectPoint then
      Some(Long(if value == "true" then 1 else if value == "false" then 0 else ParseLong(value)))
    else if key < CurlOptTypeOffT then
      Some(Text(value))
    else
      None
  }

  lemma DecodeBooleanWords(key: int)
    requires key < CurlOptTypeObjectPoint
    ensures DecodeOption(key, "true") == Some(Long(1))
    ensures DecodeOption(key, "false") == Some(Long(0))
  {
  }

  /** An integer option written in decimal reaches the engine as that integer. */
  lemma DecodeDecimalRoundTrip(key: int, n: int)
    requires key < CurlOptTypeObjectPoint
    requires LongMin <= n <= LongMax
    ensures DecodeOption(key, Decimal(n)) == Some(Long(n))
  {
    var s := Decimal(n);
    assert s[0] == '-' || IsDigit(s[0]);
    assert s != "true" && s != "false" by {
      assert "true"[0] == 't' && "false"[0] == 'f';
    }
    ParseLongOfDecimal(n);
  }

  // ---------------------------------------------------------------------
  // Visiting the options in ascending identifier order

  lemma HasElement(s: set<int>)
    requires s != {}
    ensures exists x :: x in s
  {
    if forall x :: x !in s {
      assert false;
    }
  }

  ghost function MinKey(s: set<int>): (m: int)
    requires s != {}
    ensures m in s && forall k :: k in s ==> m <= k
    decreases |s|
  {
    HasElement(s);
    var x :| x in s;
    if s == {x} then x
    else
      var r := MinKey(s - {x});
      assert forall k :: k in s ==> k == x || k in s - {x};
      if x <= r then x else r
  }

  predicate StrictlyAscending(r: seq<int>)
  {
    forall i, j :: 0 <= i < j < |r| ==> r[i] < r[j]
  }

  /** `r` lists exactly the elements of `s`. */
  predicate Lists(r: seq<int>, s: set<int>)
  {
    && (forall i :: 0 <= i < |r| ==> r[i] in s)
    && (forall k :: k in s ==> k in r)
  }

  /** The identifiers of a set, smallest first. */
  ghost function OrderedKeys(s: set<int>): seq<int>
    decreases |s|
  {
    if s == {} then []
    else
      var m := MinKey(s);
      [m] + OrderedKeys(s - {m})
  }

  /** The ordering lists every identifier of the set exactly once, smallest first. */
  lemma {:induction false} OrderedKeysSorted(s: set<int>)
    ensures Lists(OrderedKeys(s), s)
    ensures StrictlyAscending(OrderedKeys(s))
    decreases |s|
  {
    if s != {} {
      var m := MinKey(s);
      OrderedKeysSorted(s - {m});
      ConsSorted(m, OrderedKeys(s - {m}), s);
    }
  }

  /** Putting the least element in front of the ordered rest orders the whole set. */
  lemma ConsSorted(m: int, rest: seq<int>, s: set<int>)
    requires m in s && forall k :: k in s ==> m <= k
    requires Lists(rest, s - {m}) && StrictlyAscending(rest)
    ensures Lists([m] + rest, s) && StrictlyAscending([m] + rest)
  {
    var r := [m] + rest;
    forall i | 0 <= i < |r|
      ensures r[i] in s
    {
      if i > 0 {
        assert r[i] == rest[i - 1];
      }
    }
    forall k | k in s
      ensures k in r
    {
      if k != m {
        assert k in s - {m};
      }
    }
    forall i, j | 0 <= i < j < |r|
      ensures r[i] < r[j]
    {
      assert r[j] == rest[j - 1];
      assert rest[j - 1] in s - {m};
      if i > 0 {
        assert r[i] == rest[i - 1];
      }
    }
  }

  /** The setopt call, if any, made for one registered option. */
  function OptionCall(key: int, value: string): (calls: seq<SetOpt>)
    ensures |calls| <= 1
  {
    match DecodeOption(key, value)
    case Some(v) => [SetOpt(key, v)]
    case None => []
  }

  /** The setopt calls made for the registered options visited in the order `keys`. */
  function CallsFor(keys: seq<int>, options: map<int, string>): (calls: seq<SetOpt>)
    requires forall i :: 0 <= i < |keys| ==> keys[i] in options
    ensures forall i :: 0 <= i < |calls| ==>
              calls[i].key in keys && calls[i].key < CurlOptTypeOffT &&
              DecodeOption(calls[i].key, options[calls[i].key]) == Some(calls[i].value)
  {
    if keys == [] then []
    else
      var k := keys[|keys| - 1];
      CallsFor(keys[..|keys| - 1], options) + OptionCall(k, options[k])
  }

  lemma CallsForSnoc(keys: seq<int>, key: int, options: map<int, string>)
    requires forall i :: 0 <= i < |keys| ==> keys[i] in options
    requires key in options
    ensures CallsFor(keys + [key], options) == CallsFor(keys, options) + OptionCall(key, options[key])
  {
    assert (keys + [key])[..|keys|] == keys;
  }

  /** Visiting a set smallest first starts with its smallest element. */
  lemma OrderedKeysUnfold(s: set<int>, key: int)
    requires key in s && forall k :: k in s ==> key <= k
    ensures OrderedKeys(s) == [key] + OrderedKeys(s - {key})
  {
    assert MinKey(s) == key;
  }

  lemma MinExists(s: set<int>)
    requires s != {}
    ensures exists key :: key in s && forall k :: k in s ==> key <= k
  {
    var m := MinKey(s);
    assert m in s && forall k :: k in s ==> m <= k;
  }

  /**
   * One step of the ascending walk over `options`: visiting the smallest
   * remaining identifier keeps "visited, then the rest in order" equal to
   * the whole walk, and adds that identifier's call.
   */
  lemma WalkStep(options: map<int, string>, remaining: set<int>, visited: seq<int>, key: int)
    requires remaining <= options.Keys
    requires visited + OrderedKeys(remaining) == OrderedKeys(options.Keys)
    requires key in remaining && forall k :: k in remaining ==> key <= k
    ensures forall i :: 0 <= i < |visited| ==> visited[i] in options
    ensures forall i :: 0 <= i < |visited| + 1 ==> (visited + [key])[i] in options
    ensures (visited + [key]) + OrderedKeys(remaining - {key}) == OrderedKeys(options.Keys)
    ensures CallsFor(visited + [key], options) == CallsFor(visited, options) + OptionCall(key, options[key])
  {
    var whole := OrderedKeys(options.Keys);
    OrderedKeysSorted(options.Keys);
    forall i | 0 <= i < |visited|
      ensures visited[i] in options
    {
      assert visited[i] == whole[i];
    }
    WalkOrder(remaining, visited, key, whole);
    CallsForSnoc(visited, key, options);
  }

  /** Moving the smallest remaining identifier from the rest onto the visited prefix. */
  lemma WalkOrder(remaining: set<int>, visited: seq<int>, key: int, whole: seq<int>)
    requires visited + OrderedKeys(remaining) == whole
    requires key in remaining && forall k :: k in remaining ==> key <= k
    ensures (visited + [key]) + OrderedKeys(remaining - {key}) == whole
  {
    var rest := OrderedKeys(remaining - {key});
    OrderedKeysUnfold(remaining, key);
    assert visited + ([key] + rest) == (visited + [key]) + rest;
  }

  /** The setopt calls `init` makes for the registered options. */
  ghost function UserOptionCalls(options: map<int, string>): seq<SetOpt>
  {
    OrderedKeysSorted(options.Keys);
    CallsFor(OrderedKeys(options.Keys), options)
  }

  predicate KeysAscending(calls: seq<SetOpt>)
  {
    forall i, j :: 0 <= i < j < |calls| ==> calls[i].key < calls[j].key
  }

  lemma AscendingSnoc(head: seq<SetOpt>, c: SetOpt)
    requires KeysAscending(head)
    requires forall i :: 0 <= i < |head| ==> head[i].key < c.key
    ensures KeysAscending(head + [c])
  {
  }

  lemma {:induction false} CallsForAscending(keys: seq<int>, options: map<int, string>)
    requires forall i :: 0 <= i < |keys| ==> keys[i] in options
    requires forall i, j :: 0 <= i < j < |keys| ==> keys[i] < keys[j]
    ensures KeysAscending(CallsFor(keys, options))
  {
    if keys != [] {
      var p := keys[..|keys| - 1];
      var last := keys[|keys| - 1];
      CallsForAscending(p, options);
      var head := CallsFor(p, options);
      forall i | 0 <= i < |head|
        ensures head[i].key < last
      {
        var m :| 0 <= m < |p| && p[m] == head[i].key;
        assert keys[m] == p[m];
      }
      match DecodeOption(last, options[last])
      case Some(v) => AscendingSnoc(head, SetOpt(last, v));
      case None =>
    }
  }

  lemma {:induction false} CallsForEffective(keys: seq<int>, options: map<int, string>, key: int)
    requires forall i :: 0 <= i < |keys| ==> keys[i] in options
    requires forall i, j :: 0 <= i < j < |keys| ==> keys[i] != keys[j]
    ensures Effective(CallsFor(keys, options), key) ==
            if key in keys then DecodeOption(key, options[key]) else None
  {
    if keys != [] {
      var p := keys[..|keys| - 1];
      var last := keys[|keys| - 1];
      CallsForEffective(p, options, key);
      var tail := OptionCall(last, options[last]);
      assert CallsFor(keys, options) == CallsFor(p, options) + tail;
      EffectiveConcat(CallsFor(p, options), tail, key);
      assert key in keys <==> key in p || key == last;
      if key == last {
        assert key !in p;
      }
    }
  }

  /** Registered options reach the engine in strictly ascending identifier order. */
  lemma UserOptionCallsAscending(options: map<int, string>)
    ensures KeysAscending(UserOptionCalls(options))
  {
    var keys := OrderedKeys(options.Keys);
    OrderedKeysSorted(options.Keys);
    assert forall i :: 0 <= i < |keys| ==> keys[i] in options;
    CallsForAscending(keys, options);
  }

  /**
   * Among the option calls, identifier `key` is set exactly as decoding its
   * registered value says: decoded when it is registered and in a known
   * range, not at all otherwise.
   */
  lemma UserOptionCallsEffective(options: map<int, string>, key: int)
    ensures Effective(UserOptionCalls(options), key) ==
            if key in options then DecodeOption(key, options[key]) else None
  {
    var keys := OrderedKeys(options.Keys);
    OrderedKeysSorted(options.Keys);
    forall i, j | 0 <= i < j < |keys|
      ensures keys[i] != keys[j]
    {
    }
    CallsForEffective(keys, options, key);
  }
}
