/**
 * The Room type converters that store a `List<String>` as one comma-joined column:
 * `fromString` is Kotlin's `split(",")` and `fromList` is `joinToString(",")`.
 */
module RoomConverters {
  import opened Wrappers

  /** The number of commas in `s`. */
  function Commas(s: string): nat {
    if s == [] then 0 else (if s[0] == ',' then 1 else 0) + Commas(s[1..])
  }

  /** `s.split(",")`: the pieces between commas, empty pieces included; "" gives [""]. */
  function Split(s: string): (r: seq<string>)
    ensures |r| >= 1
  {
    if s == [] then [""]
    else if s[0] == ',' then [""] + Split(s[1..])
    else
      var rest := Split(s[1..]);
      [[s[0]] + rest[0]] + rest[1..]
  }

  /** `xs.joinToString(",")`. */
  function Join(xs: seq<string>): string {
    if xs == [] then ""
    else if |xs| == 1 then xs[0]
    else xs[0] + "," + Join(xs[1..])
  }

  /** The `fromString` converter; a null column gives the empty list. */
  function FromString(value: Option<string>): (r: seq<string>)
    ensures value.None? ==> r == []
    ensures value.Some? ==> r == Split(value.value)
  {
    match value
    case None => []
    case Some(s) => Split(s)
  }

  /** The `fromList` converter; a null list gives the empty string. */
  function FromList(list: Option<seq<string>>): (r: string)
    ensures list.None? ==> r == ""
    ensures list.Some? ==> r == Join(list.value)
  {
    match list
    case None => ""
    case Some(xs) => Join(xs)
  }

  /** A string with no comma in it. */
  predicate CommaFree(s: string) {
    forall i :: 0 <= i < |s| ==> s[i] != ','
  }

  /** Splitting gives one piece more than there are commas, and no piece holds a comma. */
  lemma {:induction false} SplitShape(s: string)
    ensures |Split(s)| == Commas(s) + 1
    ensures forall j :: 0 <= j < |Split(s)| ==> CommaFree(Split(s)[j])
  {
    if s != [] {
      SplitShape(s[1..]);
      if s[0] != ',' {
        var rest := Split(s[1..]);
        assert CommaFree(rest[0]);
        assert CommaFree([s[0]] + rest[0]) by {
          forall i | 0 <= i < |[s[0]] + rest[0]| ensures ([s[0]] + rest[0])[i] != ',' {
            if i > 0 { assert ([s[0]] + rest[0])[i] == rest[0][i - 1]; }
          }
        }
        assert forall j :: 1 <= j < |Split(s)| ==> Split(s)[j] == rest[j];
      } else {
        assert forall j :: 1 <= j < |Split(s)| ==> Split(s)[j] == Split(s[1..])[j - 1];
      }
    }
  }

  /** Joining the pieces of a split gives back the original text. */
  lemma {:induction false} JoinSplit(s: string)
    ensures Join(Split(s)) == s
  {
    if s != [] {
      JoinSplit(s[1..]);
      var rest := Split(s[1..]);
      if s[0] == ',' {
        assert Split(s) == [""] + rest;
        assert Split(s)[1..] == rest;
      } else {
        var r := Split(s);
        assert r[0] == [s[0]] + rest[0] && r[1..] == rest[1..];
        if |rest| == 1 {
          assert Join(rest) == rest[0];
        } else {
          assert Join(rest) == rest[0] + "," + Join(rest[1..]);
          assert Join(r) == r[0] + "," + Join(r[1..]);
        }
      }
    }
  }

  /** A comma-free prefix glues onto the first piece of what follows it. */
  lemma {:induction false} SplitPrefix(a: string, rest: string)
    requires CommaFree(a)
    ensures Split(a + rest) == [a + Split(rest)[0]] + Split(rest)[1..]
  {
    if a != [] {
      assert (a + rest)[0] == a[0];
      assert (a + rest)[1..] == a[1..] + rest;
      SplitPrefix(a[1..], rest);
      assert [a[0]] + (a[1..] + Split(rest)[0]) == a + Split(rest)[0];
    } else {
      var r := Split(rest);
      assert a + rest == rest && a + r[0] == r[0];
      assert r == [r[0]] + r[1..];
    }
  }

  /** A non-empty list of comma-free strings survives joining and splitting. */
  lemma {:induction false} SplitJoin(xs: seq<string>)
    requires xs != []
    requires forall j :: 0 <= j < |xs| ==> CommaFree(xs[j])
    ensures Split(Join(xs)) == xs
  {
    if |xs| == 1 {
      SplitPrefix(xs[0], "");
      assert xs[0] + "" == xs[0];
    } else {
      SplitJoin(xs[1..]);
      var tail := "," + Join(xs[1..]);
      assert Join(xs) == xs[0] + tail;
      SplitPrefix(xs[0], tail);
      assert tail[1..] == Join(xs[1..]);
      assert Split(tail) == [""] + xs[1..];
      assert xs[0] + "" == xs[0];
    }
  }

  /** Every stored string reads back to itself. */
  lemma StringRoundTrip(s: string)
    ensures FromList(Some(FromString(Some(s)))) == s
  {
    JoinSplit(s);
  }

  /** A non-empty list of comma-free strings is stored and read back unchanged. */
  lemma ListRoundTrip(xs: seq<string>)
    requires xs != []
    requires forall j :: 0 <= j < |xs| ==> CommaFree(xs[j])
    ensures FromString(Some(FromList(Some(xs)))) == xs
  {
    SplitJoin(xs);
  }

  /** The empty list does not round-trip: it is stored as "" and read back as [""]. */
  lemma EmptyListReadsBackAsOneBlank()
    ensures FromList(Some([])) == ""
    ensures FromString(Some(FromList(Some([])))) == [""]
  {
  }

  /** A string holding a comma does not round-trip: it comes back as two elements. */
  lemma CommaSplitsElement()
    ensures FromString(Some(FromList(Some(["a,b"])))) == ["a", "b"]
  {
    SplitPrefix("b", "");
    assert "b" + "" == "b";
    assert Split("b") == ["b"];
    assert ",b"[1..] == "b";
    assert Split(",b") == [""] + Split("b");
    SplitPrefix("a", ",b");
    assert "a" + ",b" == "a,b";
    assert "a" + "" == "a";
    assert Split("a,b") == ["a", "b"];
    assert FromList(Some(["a,b"])) == "a,b";
  }
}
