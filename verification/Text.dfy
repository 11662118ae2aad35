/** Joining and splitting text on one separator character, as strings.Join and a reader of
    the generated configuration do. */
module Text {

  function Join(parts: seq<string>, sep: char): string
  {
    if parts == [] then ""
    else if |parts| == 1 then parts[0]
    else parts[0] + [sep] + Join(parts[1..], sep)
  }

  lemma JoinCons(first: string, rest: seq<string>, sep: char)
    requires rest != []
    ensures Join([first] + rest, sep) == first + [sep] + Join(rest, sep)
  {
    assert ([first] + rest)[1..] == rest;
  }

  function Split(s: string, sep: char): (parts: seq<string>)
    ensures |parts| > 0
  {
    if s == "" then [""]
    else
      var rest := Split(s[1..], sep);
      if s[0] == sep then [""] + rest else Glue(s[0], rest)
  }

  function Glue(c: char, parts: seq<string>): seq<string>
    requires parts != []
  {
    [[c] + parts[0]] + parts[1..]
  }

  function SplitAll(parts: seq<string>, sep: char): seq<string>
  {
    if parts == [] then [] else Split(parts[0], sep) + SplitAll(parts[1..], sep)
  }

  lemma {:induction false} SplitUnbroken(s: string, sep: char)
    ensures Split(s, sep) == [s] <==> sep !in s
    ensures |Split(s, sep)| == 1 <==> sep !in s
  {
    if s != "" {
      SplitUnbroken(s[1..], sep);
      assert s == [s[0]] + s[1..];
    }
  }

  lemma GlueAcross(c: char, parts: seq<string>, more: seq<string>)
    requires parts != []
    ensures Glue(c, parts + more) == Glue(c, parts) + more
  {
    assert (parts + more)[1..] == parts[1..] + more;
  }

  lemma {:induction false} SplitAcross(a: string, sep: char, b: string, whole: string)
    requires whole == a + [sep] + b
    ensures Split(whole, sep) == Split(a, sep) + Split(b, sep)
  {
    if a == "" {
      assert whole[1..] == b && whole[0] == sep;
    } else {
      SplitAcross(a[1..], sep, b, whole[1..]);
      if a[0] != sep {
        GlueAcross(a[0], Split(a[1..], sep), Split(b, sep));
      }
    }
  }

  /** Splitting a joined, non-empty list gives the splits of its entries, one after another. */
  lemma {:induction false} SplitOfJoin(parts: seq<string>, sep: char)
    requires parts != []
    ensures Split(Join(parts, sep), sep) == SplitAll(parts, sep)
  {
    if |parts| == 1 {
      assert SplitAll(parts[1..], sep) == [];
    } else {
      SplitAcross(parts[0], sep, Join(parts[1..], sep), Join(parts, sep));
      SplitOfJoin(parts[1..], sep);
    }
  }

  lemma {:induction false} SplitAllSize(parts: seq<string>, sep: char)
    ensures |SplitAll(parts, sep)| >= |parts|
    ensures SplitAll(parts, sep) == parts <==> forall i :: 0 <= i < |parts| ==> sep !in parts[i]
    ensures |SplitAll(parts, sep)| == |parts| ==> SplitAll(parts, sep) == parts
  {
    if parts != [] {
      SplitUnbroken(parts[0], sep);
      SplitAllSize(parts[1..], sep);
      assert parts == [parts[0]] + parts[1..];
      var whole := SplitAll(parts, sep);
      if forall i :: 0 <= i < |parts| ==> sep !in parts[i] {
        assert sep !in parts[0];
        assert forall i :: 0 <= i < |parts[1..]| ==> parts[1..][i] == parts[i + 1];
      } else if sep !in parts[0] {
        assert exists i :: 0 <= i < |parts[1..]| && sep in parts[1..][i] by {
          var i :| 0 <= i < |parts| && sep in parts[i];
          assert parts[1..][i - 1] == parts[i];
        }
      }
    }
  }

  /** Join is undone by Split exactly when no entry contains the separator. */
  lemma SplitUndoesJoin(parts: seq<string>, sep: char)
    requires parts != []
    ensures Split(Join(parts, sep), sep) == parts <==> forall i :: 0 <= i < |parts| ==> sep !in parts[i]
  {
    SplitOfJoin(parts, sep);
    SplitAllSize(parts, sep);
  }

  lemma SuffixInjective(a: string, b: string, suffix: string)
    requires a + suffix == b + suffix
    ensures a == b
  {
    assert |a| == |b|;
    assert a == (a + suffix)[..|a|] == (b + suffix)[..|b|] == b;
  }
}
