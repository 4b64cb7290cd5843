/** JavaScript values and the handful of built-in operations the pages and
    routes rely on: truthiness, `||` and `??`, property access, `typeof`,
    `String.prototype.trim`, `String.prototype.split`, UTF-16 length and
    decimal rendering of integers. */
module Js {

  datatype Option<+T> = None | Some(value: T)

  /** A JSON-shaped JavaScript value. `Obj` lists an object's own properties
      in insertion order; the values the pages and routes receive have
      distinct keys, which the type does not enforce (where a key repeats,
      `Lookup` lets the first entry win, where `JSON.parse` keeps the last).
      Numbers are exact reals (NaN and infinities are not modelled). */
  datatype Json =
    | Undefined
    | Null
    | Bool(b: bool)
    | Num(n: real)
    | Str(s: string)
    | Arr(items: seq<Json>)
    | Obj(entries: seq<(string, Json)>)

  /** The outcome of an expression that may throw a TypeError (reading a
      property of `null`/`undefined`, calling a method a value lacks). */
  datatype Throws<+T> = Ok(value: T) | TypeError

  /** `Boolean(v)`: undefined, null, false, 0 and "" are the falsy values. */
  predicate Truthy(v: Json) {
    match v
    case Undefined => false
    case Null => false
    case Bool(b) => b
    case Num(n) => n != 0.0
    case Str(s) => s != ""
    case Arr(_) => true
    case Obj(_) => true
  }

  /** `v == null` (loose equality): null or undefined. */
  predicate Nullish(v: Json) {
    v.Undefined? || v.Null?
  }

  /** `a || b`: the first operand when truthy, else the second. */
  function Or(a: Json, b: Json): Json {
    if Truthy(a) then a else b
  }

  /** `a ?? b`: the first operand unless it is null or undefined. */
  function Coalesce(a: Json, b: Json): Json {
    if Nullish(a) then b else a
  }

  /** `typeof v` */
  function TypeOf(v: Json): string {
    match v
    case Undefined => "undefined"
    case Null => "object"
    case Bool(_) => "boolean"
    case Num(_) => "number"
    case Str(_) => "string"
    case Arr(_) => "object"
    case Obj(_) => "object"
  }

  /** The value stored under `key` among an object's own properties, or
      undefined. */
  function Lookup(entries: seq<(string, Json)>, key: string): Json {
    if |entries| == 0 then Undefined
    else if entries[0].0 == key then entries[0].1
    else Lookup(entries[1..], key)
  }

  /** The first entry under `key` decides the lookup. */
  lemma {:induction false} LookupFirst(entries: seq<(string, Json)>, key: string, i: nat)
    requires i < |entries| && entries[i].0 == key
    requires forall j :: 0 <= j < i ==> entries[j].0 != key
    ensures Lookup(entries, key) == entries[i].1
  {
    if i > 0 {
      assert entries[0].0 != key;
      LookupFirst(entries[1..], key, i - 1);
    }
  }

  /** A key no entry carries reads as undefined. */
  lemma {:induction false} LookupMissing(entries: seq<(string, Json)>, key: string)
    requires forall j :: 0 <= j < |entries| ==> entries[j].0 != key
    ensures Lookup(entries, key) == Undefined
  {
    if |entries| > 0 {
      assert entries[0].0 != key;
      LookupMissing(entries[1..], key);
    }
  }

  /** `v.key` for a value that is not null or undefined. Only objects carry
      the data properties read by the modelled code; on any other value the
      read gives undefined. */
  function Get(v: Json, key: string): Json
    requires !Nullish(v)
  {
    if v.Obj? then Lookup(v.entries, key) else Undefined
  }

  /** `v.key`, which throws on null and undefined. */
  function Prop(v: Json, key: string): Throws<Json> {
    if Nullish(v) then TypeError else Ok(Get(v, key))
  }

  /** `v?.key` */
  function OptGet(v: Json, key: string): Json {
    if Nullish(v) then Undefined else Get(v, key)
  }

  /** Assignment `entries.key = value`: overwrites the property in place or
      appends it. */
  function Assign(entries: seq<(string, Json)>, key: string, value: Json): seq<(string, Json)> {
    if |entries| == 0 then [(key, value)]
    else if entries[0].0 == key then [(key, value)] + entries[1..]
    else [entries[0]] + Assign(entries[1..], key, value)
  }

  /** `v.key = value` as JSON.stringify later sees it: an object gains or
      updates the property; on an array the property is not serialised, so the
      value is unchanged. */
  function SetProp(v: Json, key: string, value: Json): Json {
    if v.Obj? then Obj(Assign(v.entries, key, value)) else v
  }

  /** Setting a property makes it readable under that key. */
  lemma {:induction false} LookupAssignSame(entries: seq<(string, Json)>, key: string, value: Json)
    ensures Lookup(Assign(entries, key, value), key) == value
  {
    if |entries| > 0 && entries[0].0 != key {
      LookupAssignSame(entries[1..], key, value);
    }
  }

  /** Setting a property leaves every other property as it was. */
  lemma {:induction false} LookupAssignOther(entries: seq<(string, Json)>, key: string, value: Json, other: string)
    requires other != key
    ensures Lookup(Assign(entries, key, value), other) == Lookup(entries, other)
  {
    if |entries| > 0 && entries[0].0 != key {
      LookupAssignOther(entries[1..], key, value, other);
    }
  }

  lemma GetSetSame(v: Json, key: string, value: Json)
    requires v.Obj?
    ensures Get(SetProp(v, key, value), key) == value
  {
    LookupAssignSame(v.entries, key, value);
  }

  /** Reading any key after an assignment: the new value under the assigned
      key, the old one under every other key. */
  lemma GetSet(v: Json, key: string, value: Json, k: string)
    requires v.Obj?
    ensures Get(SetProp(v, key, value), k) == if k == key then value else Get(v, k)
  {
    if k == key { GetSetSame(v, key, value); } else { GetSetOther(v, key, value, k); }
  }

  lemma GetSetOther(v: Json, key: string, value: Json, other: string)
    requires v.Obj? && other != key
    ensures Get(SetProp(v, key, value), other) == Get(v, other)
  {
    LookupAssignOther(v.entries, key, value, other);
  }

  /* ----- Strings ----- */

  /** The characters `String.prototype.trim` removes: WhiteSpace and
      LineTerminator of ECMA-262 (section 12.2 and 12.3). */
  predicate IsSpace(c: char) {
    c == ' ' || c == '\t' || c == '\n' || c == '\r' || c == '\U{0B}' || c == '\U{0C}'
    || c == '\U{A0}' || c == '\U{1680}' || ('\U{2000}' <= c <= '\U{200A}')
    || c == '\U{2028}' || c == '\U{2029}' || c == '\U{202F}' || c == '\U{205F}'
    || c == '\U{3000}' || c == '\U{FEFF}'
  }

  predicate AllSpace(s: string) {
    forall i :: 0 <= i < |s| ==> IsSpace(s[i])
  }

  function TrimStart(s: string): string {
    if |s| > 0 && IsSpace(s[0]) then TrimStart(s[1..]) else s
  }

  function TrimEnd(s: string): string {
    if |s| > 0 && IsSpace(s[|s| - 1]) then TrimEnd(s[..|s| - 1]) else s
  }

  /** `s.trim()` */
  function Trim(s: string): string {
    TrimEnd(TrimStart(s))
  }

  /** Trimming keeps a middle part of the string whose ends are not blank and
      drops only blanks around it. */
  lemma {:induction false} TrimStartSpec(s: string)
    ensures exists k :: 0 <= k <= |s| && TrimStart(s) == s[k..] && AllSpace(s[..k])
    ensures TrimStart(s) == "" || !IsSpace(TrimStart(s)[0])
  {
    if |s| > 0 && IsSpace(s[0]) {
      TrimStartSpec(s[1..]);
      var k :| 0 <= k <= |s[1..]| && TrimStart(s[1..]) == s[1..][k..] && AllSpace(s[1..][..k]);
      TrimStartStep(s, k);
    } else {
      assert s == s[0..] && s[..0] == "";
    }
  }

  /** One leading space more: the witness moves by one. */
  lemma TrimStartStep(s: string, k: nat)
    requires |s| > 0 && IsSpace(s[0]) && k <= |s| - 1
    requires TrimStart(s[1..]) == s[1..][k..] && AllSpace(s[1..][..k])
    ensures TrimStart(s) == s[k + 1..] && AllSpace(s[..k + 1])
  {
    assert s[1..][k..] == s[k + 1..];
    assert s[..k + 1] == [s[0]] + s[1..][..k];
    AllSpaceCons(s[0], s[1..][..k]);
  }

  lemma AllSpaceCons(c: char, t: string)
    requires IsSpace(c) && AllSpace(t)
    ensures AllSpace([c] + t)
  {
    forall i | 0 <= i < |[c] + t| ensures IsSpace(([c] + t)[i]) {
      if i > 0 { assert ([c] + t)[i] == t[i - 1]; }
    }
  }

  lemma {:induction false} TrimEndSpec(s: string)
    ensures exists k :: 0 <= k <= |s| && TrimEnd(s) == s[..k] && AllSpace(s[k..])
    ensures TrimEnd(s) == "" || !IsSpace(TrimEnd(s)[|TrimEnd(s)| - 1])
  {
    if |s| > 0 && IsSpace(s[|s| - 1]) {
      var p := s[..|s| - 1];
      TrimEndSpec(p);
      var k :| 0 <= k <= |p| && TrimEnd(p) == p[..k] && AllSpace(p[k..]);
      assert p[..k] == s[..k];
      assert AllSpace(s[k..]) by {
        forall i | 0 <= i < |s| - k ensures IsSpace(s[k..][i]) {
          if i < |p| - k { assert s[k..][i] == p[k..][i]; }
        }
      }
    } else {
      assert s == s[..|s|] && s[|s|..] == "";
    }
  }

  lemma {:induction false} TrimStartEmpty(s: string)
    ensures TrimStart(s) == "" <==> AllSpace(s)
  {
    if |s| > 0 && IsSpace(s[0]) {
      TrimStartEmpty(s[1..]);
      assert AllSpace(s) <==> AllSpace(s[1..]) by {
        if AllSpace(s[1..]) {
          forall i | 0 <= i < |s| ensures IsSpace(s[i]) { if i > 0 { assert s[i] == s[1..][i - 1]; } }
        }
      }
    }
  }

  lemma {:induction false} TrimEndEmpty(s: string)
    ensures TrimEnd(s) == "" <==> AllSpace(s)
  {
    if |s| > 0 && IsSpace(s[|s| - 1]) {
      var p := s[..|s| - 1];
      TrimEndEmpty(p);
      assert AllSpace(s) <==> AllSpace(p) by {
        if AllSpace(p) {
          forall i | 0 <= i < |s| ensures IsSpace(s[i]) { if i < |p| { assert s[i] == p[i]; } }
        }
      }
    }
  }

  /** `s.trim()` has no blank at either end, and is empty exactly when `s` is
      all blanks. */
  lemma TrimSpec(s: string)
    ensures Trim(s) == "" || (!IsSpace(Trim(s)[0]) && !IsSpace(Trim(s)[|Trim(s)| - 1]))
    ensures Trim(s) == "" <==> AllSpace(s)
  {
    var t := TrimStart(s);
    TrimStartSpec(s);
    TrimEndSpec(t);
    TrimStartEmpty(s);
    TrimEndEmpty(t);
    var k :| 0 <= k <= |t| && TrimEnd(t) == t[..k] && AllSpace(t[k..]);
    if Trim(s) != "" {
      assert Trim(s)[0] == t[0];
    }
    if t != "" {
      assert !IsSpace(t[0]);
    }
  }

  /** `sep` occurs in `s` at position `j`. */
  predicate OccursAt(s: string, sep: string, j: nat) {
    j + |sep| <= |s| && s[j..j + |sep|] == sep
  }

  lemma OccursShiftBy(s: string, sep: string, off: nat, j: nat)
    requires off <= |s|
    ensures OccursAt(s[off..], sep, j) <==> OccursAt(s, sep, j + off)
  {
    if j + off + |sep| <= |s| {
      assert s[off..][j..j + |sep|] == s[j + off..j + off + |sep|];
    }
  }

  /** The first position at or after `k` at which `sep` occurs in `s`. */
  function IndexFrom(s: string, sep: string, k: nat): (r: Option<nat>)
    requires |sep| > 0
    ensures r.Some? ==> k <= r.value && OccursAt(s, sep, r.value)
    ensures r.Some? ==> forall j: nat :: k <= j < r.value ==> !OccursAt(s, sep, j)
    ensures r.None? ==> forall j: nat :: k <= j ==> !OccursAt(s, sep, j)
    decreases |s| - k
  {
    if k + |sep| > |s| then None
    else if OccursAt(s, sep, k) then Some(k)
    else IndexFrom(s, sep, k + 1)
  }

  /** `s.indexOf(sep)`: the first position at which `sep` occurs in `s`. */
  function IndexOf(s: string, sep: string): (r: Option<nat>)
    requires |sep| > 0
    ensures r.Some? ==> OccursAt(s, sep, r.value)
    ensures r.Some? ==> forall j: nat :: j < r.value ==> !OccursAt(s, sep, j)
    ensures r.None? ==> forall j: nat :: !OccursAt(s, sep, j)
  {
    IndexFrom(s, sep, 0)
  }

  predicate Contains(s: string, sep: string) {
    exists j: nat | j <= |s| :: OccursAt(s, sep, j)
  }

  /** A string without the separator has no first occurrence of it. */
  lemma NoIndexWithout(s: string, sep: string)
    requires |sep| > 0 && !Contains(s, sep)
    ensures IndexOf(s, sep).None?
  {
  }

  /** No occurrence starts at or after `k` when the text from `k` on holds
      no separator. */
  lemma NoIndexFromWithout(s: string, sep: string, k: nat)
    requires |sep| > 0 && k <= |s| && !Contains(s[k..], sep)
    ensures IndexFrom(s, sep, k).None?
  {
    var r := IndexFrom(s, sep, k);
    if r.Some? {
      OccursShiftBy(s, sep, k, r.value - k);
    }
  }

  /** The pieces of `s[k..]` between the occurrences of `sep` found
      scanning left to right. */
  function SplitFrom(s: string, sep: string, k: nat): (r: seq<string>)
    requires |sep| > 0 && k <= |s|
    ensures |r| > 0
    decreases |s| - k
  {
    match IndexFrom(s, sep, k)
    case None => [s[k..]]
    case Some(i) => [s[k..i]] + SplitFrom(s, sep, i + |sep|)
  }

  /** `s.split(sep)` for a non-empty separator. */
  function Split(s: string, sep: string): seq<string>
    requires |sep| > 0
  {
    SplitFrom(s, sep, 0)
  }

  /** `s.split(sep).pop()` */
  function LastPiece(s: string, sep: string): string
    requires |sep| > 0
  {
    var pieces := Split(s, sep);
    pieces[|pieces| - 1]
  }

  /** Where the last piece of `s[k..]` starts: just after the last
      occurrence of `sep` at or after `k`, or `k` when there is none. */
  function LastStart(s: string, sep: string, k: nat): (p: nat)
    requires |sep| > 0 && k <= |s|
    ensures k <= p <= |s|
    ensures IndexFrom(s, sep, p).None?
    ensures p == k <==> IndexFrom(s, sep, k).None?
    ensures p > k ==> p >= k + |sep| && OccursAt(s, sep, p - |sep|)
    decreases |s| - k
  {
    match IndexFrom(s, sep, k)
    case None => k
    case Some(i) => LastStart(s, sep, i + |sep|)
  }

  lemma {:induction false} LastPieceFrom(s: string, sep: string, k: nat)
    requires |sep| > 0 && k <= |s|
    ensures var pieces := SplitFrom(s, sep, k);
      pieces[|pieces| - 1] == s[LastStart(s, sep, k)..]
    decreases |s| - k
  {
    match IndexFrom(s, sep, k)
    case None =>
    case Some(i) =>
      var rest := SplitFrom(s, sep, i + |sep|);
      LastPieceFrom(s, sep, i + |sep|);
      assert SplitFrom(s, sep, k) == [s[k..i]] + rest;
      assert ([s[k..i]] + rest)[|rest|] == rest[|rest| - 1];
  }

  /** The text after the position `p` holds no separator when none starts
      at or after `p`. */
  lemma NoSepAfter(s: string, sep: string, p: nat)
    requires |sep| > 0 && p <= |s| && IndexFrom(s, sep, p).None?
    ensures !Contains(s[p..], sep)
  {
    forall j: nat ensures !OccursAt(s[p..], sep, j) {
      OccursShiftBy(s, sep, p, j);
    }
  }

  /** The separator occurs exactly when the last piece starts after the
      beginning. */
  lemma ContainsIffStart(s: string, sep: string)
    requires |sep| > 0
    ensures Contains(s, sep) <==> LastStart(s, sep, 0) > 0
  {
    var r := IndexFrom(s, sep, 0);
    if r.Some? {
      assert OccursAt(s, sep, r.value) && r.value <= |s|;
    }
  }

  /** `s.split(sep).pop()`: the text after the last occurrence of the
      separator, or the whole string when it does not occur. */
  lemma SplitLast(s: string, sep: string)
    requires |sep| > 0
    ensures var last := LastPiece(s, sep);
      && |last| <= |s| && last == s[|s| - |last|..]
      && !Contains(last, sep)
      && (!Contains(s, sep) ==> last == s)
      && (Contains(s, sep) ==> |last| + |sep| <= |s| && OccursAt(s, sep, |s| - |last| - |sep|))
  {
    var p := LastPieceStart(s, sep);
    SuffixAt(s, sep, p, LastPiece(s, sep));
  }

  /** The position the last piece starts at. */
  lemma LastPieceStart(s: string, sep: string) returns (p: nat)
    requires |sep| > 0
    ensures p <= |s| && LastPiece(s, sep) == s[p..] && !Contains(LastPiece(s, sep), sep)
    ensures Contains(s, sep) <==> p > 0
    ensures p > 0 ==> p >= |sep| && OccursAt(s, sep, p - |sep|)
  {
    p := LastStart(s, sep, 0);
    LastPieceIs(s, sep);
    StartFacts(s, sep, p);
  }

  lemma LastPieceIs(s: string, sep: string)
    requires |sep| > 0
    ensures LastPiece(s, sep) == s[LastStart(s, sep, 0)..]
  {
    LastPieceFrom(s, sep, 0);
  }

  lemma StartFacts(s: string, sep: string, p: nat)
    requires |sep| > 0 && p == LastStart(s, sep, 0)
    ensures p <= |s| && !Contains(s[p..], sep)
    ensures Contains(s, sep) <==> p > 0
    ensures p > 0 ==> p >= |sep| && OccursAt(s, sep, p - |sep|)
  {
    NoSepAfter(s, sep, p);
    ContainsIffStart(s, sep);
  }

  /** The suffix from `p` on, seen from the end of the string. */
  lemma SuffixAt(s: string, sep: string, p: nat, last: string)
    requires p <= |s| && last == s[p..] && !Contains(last, sep)
    requires Contains(s, sep) <==> p > 0
    requires p > 0 ==> p >= |sep| && OccursAt(s, sep, p - |sep|)
    ensures && |last| <= |s| && last == s[|s| - |last|..]
            && !Contains(last, sep)
            && (!Contains(s, sep) ==> last == s)
            && (Contains(s, sep) ==> |last| + |sep| <= |s| && OccursAt(s, sep, |s| - |last| - |sep|))
  {
    assert |s| - |last| == p;
  }

  /** The first two pieces of a split: the text before the first occurrence
      `i` of the separator, and the text after it up to the next occurrence
      (or to the end). */
  lemma SplitSecond(s: string, sep: string, i: nat)
    requires |sep| > 0 && IndexOf(s, sep) == Some(i)
    ensures |Split(s, sep)| >= 2
    ensures Split(s, sep)[0] == s[..i]
    ensures Split(s, sep)[1] ==
      (match IndexFrom(s, sep, i + |sep|) case None => s[i + |sep|..] case Some(j) => s[i + |sep|..j])
  {
    var rest := SplitFrom(s, sep, i + |sep|);
    assert Split(s, sep) == [s[0..i]] + rest;
    assert s[0..i] == s[..i];
  }

  /** `s.length`: the number of UTF-16 code units, two for a character
      outside the Basic Multilingual Plane. */
  function Utf16Length(s: string): nat {
    if |s| == 0 then 0 else Utf16Length(s[..|s| - 1]) + (if s[|s| - 1] as int >= 0x10000 then 2 else 1)
  }

  lemma {:induction false} Utf16LengthBounds(s: string)
    ensures |s| <= Utf16Length(s) <= 2 * |s|
  {
    if |s| > 0 { Utf16LengthBounds(s[..|s| - 1]); }
  }

  /* ----- Decimal rendering of integers ----- */

  function DigitChar(d: nat): char
    requires d < 10
  {
    "0123456789"[d]
  }

  function DigitValue(c: char): nat {
    if '0' <= c <= '9' then (c as int - '0' as int) as nat else 0
  }

  /** `String(n)` for a natural number: decimal digits, no leading zero. */
  function NatToString(n: nat): (r: string)
    ensures |r| > 0
    ensures forall i :: 0 <= i < |r| ==> '0' <= r[i] <= '9'
    decreases n
  {
    if n < 10 then [DigitChar(n)] else NatToString(n / 10) + [DigitChar(n % 10)]
  }

  /** `String(i)` for an integer. */
  function IntToString(i: int): string {
    if i < 0 then "-" + NatToString(-i) else NatToString(i)
  }

  /** Reads a run of decimal digits back. */
  function ParseNat(s: string): nat {
    if |s| == 0 then 0 else ParseNat(s[..|s| - 1]) * 10 + DigitValue(s[|s| - 1])
  }

  lemma {:induction false} ParseNatToString(n: nat)
    ensures ParseNat(NatToString(n)) == n
    decreases n
  {
    if n >= 10 {
      var r := NatToString(n);
      assert r[..|r| - 1] == NatToString(n / 10);
      ParseNatToString(n / 10);
    }
  }

  /** `s.padStart(2, '0')` */
  function PadStart2(s: string): string {
    if |s| >= 2 then s else if |s| == 1 then "0" + s else "00"
  }

  /** `String(v)` for a value that is not an array; `None` for a number
      with a fractional part, whose decimal rendering is not modelled. The
      result is what a template literal or a property key made of `v`
      would read. */
  function PrimText(v: Json): Option<string> {
    match v
    case Undefined => Some("undefined")
    case Null => Some("null")
    case Bool(b) => Some(if b then "true" else "false")
    case Num(n) => if n == n.Floor as real then Some(IntToString(n.Floor)) else None
    case Str(s) => Some(s)
    case Arr(_) => Some("")
    case Obj(_) => Some("[object Object]")
  }

  /** `items.join(sep)`: null and undefined elements print as nothing and
      arrays print their own elements joined by commas. */
  function JoinText(items: seq<Json>, sep: string): Option<string>
    decreases items
  {
    if |items| == 0 then Some("")
    else
      var head :=
        if Nullish(items[0]) then Some("")
        else if items[0].Arr? then JoinText(items[0].items, ",")
        else PrimText(items[0]);
      var rest := JoinText(items[1..], sep);
      if head.None? || rest.None? then None
      else if |items| == 1 then head
      else Some(head.value + sep + rest.value)
  }

  /** `String(v)`: an array prints as its elements joined by commas. */
  function ToText(v: Json): Option<string> {
    if v.Arr? then JoinText(v.items, ",") else PrimText(v)
  }
}
