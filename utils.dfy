/** `cn(...values)`, the class-name joiner of the frontend: strings are kept,
    arrays are spliced in one level, objects give the keys whose values are
    truthy, everything else is dropped; the pieces are joined by single
    spaces and trimmed. */
module ClassNames {
  import opened Js

  /** Some entry gives `key` a truthy value. */
  predicate SwitchedOn(entries: seq<(string, Json)>, key: string) {
    exists i :: 0 <= i < |entries| && entries[i].0 == key && Truthy(entries[i].1)
  }

  lemma SwitchedOnStep(entries: seq<(string, Json)>)
    requires |entries| > 0
    ensures forall key :: SwitchedOn(entries, key) <==>
      (entries[0].0 == key && Truthy(entries[0].1)) || SwitchedOn(entries[1..], key)
  {
    forall key | SwitchedOn(entries[1..], key)
      ensures SwitchedOn(entries, key)
    {
      var i :| 0 <= i < |entries[1..]| && entries[1..][i].0 == key && Truthy(entries[1..][i].1);
      assert entries[i + 1] == entries[1..][i];
    }
    forall key | SwitchedOn(entries, key) && !(entries[0].0 == key && Truthy(entries[0].1))
      ensures SwitchedOn(entries[1..], key)
    {
      var i :| 0 <= i < |entries| && entries[i].0 == key && Truthy(entries[i].1);
      assert entries[1..][i - 1] == entries[i];
    }
  }

  /** The keys of an object's own properties whose values are truthy, in
      entry order. */
  function TruthyKeys(entries: seq<(string, Json)>): (r: seq<Json>)
    ensures |r| <= |entries|
    ensures forall i :: 0 <= i < |r| ==> r[i].Str?
    ensures forall key :: Str(key) in r <==> SwitchedOn(entries, key)
  {
    if |entries| == 0 then []
    else
      SwitchedOnStep(entries);
      var rest := TruthyKeys(entries[1..]);
      if Truthy(entries[0].1) then [Str(entries[0].0)] + rest else rest
  }

  /** Keys come out in entry order: the keys of consecutive runs of entries
      are concatenated. */
  lemma {:induction false} TruthyKeysConcat(a: seq<(string, Json)>, b: seq<(string, Json)>)
    ensures TruthyKeys(a + b) == TruthyKeys(a) + TruthyKeys(b)
  {
    if |a| > 0 {
      assert (a + b)[1..] == a[1..] + b;
      assert (a + b)[0] == a[0];
      TruthyKeysConcat(a[1..], b);
    } else {
      assert a + b == b;
    }
  }

  /** Each entry contributes its own key, or nothing, at its own place. */
  lemma TruthyKeysSingle(key: string, value: Json)
    ensures TruthyKeys([(key, value)]) == if Truthy(value) then [Str(key)] else []
  {
    assert [(key, value)][1..] == [];
  }

  /** What one argument adds to the list of pieces. */
  function Contribution(v: Json): seq<Json> {
    if !Truthy(v) then []
    else if v.Str? then [v]
    else if v.Arr? then v.items
    else if v.Obj? then TruthyKeys(v.entries)
    else []
  }

  /** `values.flatMap(...)` */
  function Pieces(values: seq<Json>): seq<Json> {
    if |values| == 0 then [] else Contribution(values[0]) + Pieces(values[1..])
  }

  /** `cn(...values)`. `None` stands for a spliced non-integral number, whose
      decimal form the model does not compute. */
  function Cn(values: seq<Json>): Option<string> {
    var joined := JoinText(Pieces(values), " ");
    if joined.None? then None else Some(Trim(joined.value))
  }

  /** The pieces of consecutive arguments are concatenated, so each argument
      contributes on its own and in argument order. */
  lemma {:induction false} PiecesConcat(a: seq<Json>, b: seq<Json>)
    ensures Pieces(a + b) == Pieces(a) + Pieces(b)
  {
    if |a| > 0 {
      assert (a + b)[1..] == a[1..] + b;
      PiecesConcat(a[1..], b);
    } else {
      assert a + b == b;
    }
  }

  /** A falsy argument contributes nothing wherever it stands. */
  lemma FalsyIgnored(a: seq<Json>, v: Json, b: seq<Json>)
    requires !Truthy(v)
    ensures Cn(a + [v] + b) == Cn(a + b)
  {
    assert Pieces([v]) == [] by {
      assert [v][1..] == [];
    }
    PiecesConcat(a, [v]);
    assert Pieces(a + [v]) == Pieces(a) + [];
    assert Pieces(a) + [] == Pieces(a);
    PiecesConcat(a + [v], b);
    PiecesConcat(a, b);
    assert Pieces(a + [v] + b) == Pieces(a + b);
  }

  /** Non-empty strings are kept in argument order. */
  lemma {:induction false} StringsInOrder(ss: seq<string>)
    requires forall i :: 0 <= i < |ss| ==> ss[i] != ""
    ensures Pieces(seq(|ss|, i requires 0 <= i < |ss| => Str(ss[i]))) == seq(|ss|, i requires 0 <= i < |ss| => Str(ss[i]))
  {
    if |ss| > 0 {
      StringsInOrder(ss[1..]);
      var strs := seq(|ss|, i requires 0 <= i < |ss| => Str(ss[i]));
      assert strs[1..] == seq(|ss[1..]|, i requires 0 <= i < |ss[1..]| => Str(ss[1..][i]));
    }
  }

  /** Two class strings are joined by one space, and no arguments give the
      empty string. */
  lemma CnTwoStrings(a: string, b: string)
    requires a != "" && b != ""
    ensures Cn([Str(a), Str(b)]) == Some(Trim(a + " " + b))
    ensures Cn([]) == Some("")
  {
    assert [Str(b)][1..] == [];
    assert Pieces([Str(b)]) == [Str(b)];
    assert [Str(a), Str(b)][1..] == [Str(b)];
    assert Pieces([Str(a), Str(b)]) == [Str(a), Str(b)];
    assert JoinText([Str(b)], " ") == Some(b);
  }

  /** Truthy numbers and booleans are dropped. */
  lemma CnDropsScalars()
    ensures Cn([Num(1.0), Bool(true)]) == Some("")
  {
    assert [Num(1.0), Bool(true)][1..] == [Bool(true)];
    assert [Bool(true)][1..] == [];
  }

  const SampleEntries: seq<(string, Json)> := [("on", Bool(true)), ("off", Bool(false)), ("lg", Num(2.0))]

  lemma SampleKeys()
    ensures TruthyKeys(SampleEntries) == [Str("on"), Str("lg")]
  {
    var obj := SampleEntries;
    assert obj[1..][1..][1..] == [];
    assert TruthyKeys(obj[1..][1..]) == [Str("lg")];
    assert TruthyKeys(obj[1..]) == [Str("lg")];
  }

  /** An object gives exactly the keys it switches on. */
  lemma CnObject()
    ensures Cn([Obj(SampleEntries)]) == Some("on lg")
  {
    SamplePieces();
    SampleJoin();
    SampleTrim();
  }

  lemma SamplePieces()
    ensures Pieces([Obj(SampleEntries)]) == [Str("on"), Str("lg")]
  {
    SampleKeys();
    assert [Obj(SampleEntries)][1..] == [];
  }

  lemma SampleTrim()
    ensures Trim("on lg") == "on lg"
  {
    assert TrimStart("on lg") == "on lg";
    assert TrimEnd("on lg") == "on lg";
  }

  lemma SampleJoin()
    ensures JoinText([Str("on"), Str("lg")], " ") == Some("on lg")
  {
    assert [Str("on"), Str("lg")][1..] == [Str("lg")];
    assert [Str("lg")][1..] == [];
    assert JoinText([Str("lg")], " ") == Some("lg");
    assert "on" + " " + "lg" == "on lg";
  }

  /** Arrays are spliced one level only, so a nested array prints
      comma-joined. */
  lemma CnNestedArray()
    ensures Cn([Arr([Str("p"), Arr([Str("q"), Str("r")])])]) == Some("p q,r")
  {
    var inner := [Str("q"), Str("r")];
    var nested := [Str("p"), Arr(inner)];
    assert [Arr(nested)][1..] == [];
    assert Pieces([Arr(nested)]) == nested;
    assert [Arr(inner)][1..] == [];
    assert inner[1..] == [Str("r")];
    assert [Str("r")][1..] == [];
    assert JoinText([Str("r")], ",") == Some("r");
    assert "q" + "," + "r" == "q,r";
    assert JoinText(inner, ",") == Some("q,r");
    assert nested[1..] == [Arr(inner)];
    assert JoinText(nested[1..], " ") == Some("q,r");
    assert "p" + " " + "q,r" == "p q,r";
    assert JoinText(nested, " ") == Some("p q,r");
    assert Trim("p q,r") == "p q,r" by {
      assert TrimStart("p q,r") == "p q,r";
      assert TrimEnd("p q,r") == "p q,r";
    }
  }

  /** The result never starts or ends with whitespace, and it is empty
      exactly when the joined pieces are all blank. */
  lemma CnTrimmed(values: seq<Json>)
    ensures var r := Cn(values);
      r.Some? ==> (r.value == "" || (!IsSpace(r.value[0]) && !IsSpace(r.value[|r.value| - 1])))
    ensures var j := JoinText(Pieces(values), " ");
      j.Some? ==> (Cn(values) == Some("") <==> AllSpace(j.value))
  {
    var j := JoinText(Pieces(values), " ");
    if j.Some? {
      TrimSpec(j.value);
    }
  }
}
