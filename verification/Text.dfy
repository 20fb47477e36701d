/** Strings, compared the way Go compares them, and the sorting the reconcilers rely on. */
module Text {

  /** Strict lexicographic order, character by character. */
  predicate Less(a: string, b: string) {
    b != [] && (a == [] || a[0] < b[0] || (a[0] == b[0] && Less(a[1..], b[1..])))
  }

  lemma LessIrreflexive(a: string)
    ensures !Less(a, a)
  {}

  lemma {:induction false} LessTotal(a: string, b: string)
    ensures a == b || Less(a, b) || Less(b, a)
  {
    if a != [] && b != [] && a[0] == b[0] {
      LessTotal(a[1..], b[1..]);
      assert a == [a[0]] + a[1..] && b == [b[0]] + b[1..];
    }
  }

  lemma {:induction false} LessTransitive(a: string, b: string, c: string)
    requires Less(a, b) && Less(b, c)
    ensures Less(a, c)
  {
    if a != [] && a[0] == b[0] && b[0] == c[0] {
      LessTransitive(a[1..], b[1..], c[1..]);
    }
  }

  /** The elements of a list, order and repetition forgotten. */
  function Elements<T>(s: seq<T>): set<T> {
    set x | x in s
  }

  lemma NoElements<T>(s: seq<T>)
    ensures s == [] <==> Elements(s) == {}
  {
    if s != [] { assert s[0] in Elements(s); }
  }

  ghost predicate StrictlySortedBy<T>(s: seq<T>, key: T -> string) {
    forall i, j :: 0 <= i < j < |s| ==> Less(key(s[i]), key(s[j]))
  }

  ghost predicate DistinctBy<T>(s: seq<T>, key: T -> string) {
    forall i, j :: 0 <= i < j < |s| ==> key(s[i]) != key(s[j])
  }

  function Itself(x: string): string { x }

  ghost predicate StrictlySorted(s: seq<string>) {
    StrictlySortedBy(s, Itself)
  }

  /** Two strictly sorted lists of the same elements are the same list. */
  lemma {:induction false} SortedListsAgree<T>(a: seq<T>, b: seq<T>, key: T -> string)
    requires StrictlySortedBy(a, key) && StrictlySortedBy(b, key)
    requires Elements(a) == Elements(b)
    ensures a == b
  {
    if a == [] {
      NoElements(a);
      NoElements(b);
    } else {
      NoElements(b);
      assert a[0] in Elements(b);
      assert b != [] && b[0] in Elements(a);
      LeastIsFirst(a, b, key);
      forall x ensures x in Elements(a[1..]) <==> x in Elements(b[1..]) {
        TailElements(a, key, x);
        TailElements(b, key, x);
        assert x in a <==> x in Elements(a);
        assert x in b <==> x in Elements(b);
      }
      SortedListsAgree(a[1..], b[1..], key);
    }
  }

  lemma LeastIsFirst<T>(a: seq<T>, b: seq<T>, key: T -> string)
    requires StrictlySortedBy(a, key) && StrictlySortedBy(b, key)
    requires a != [] && b != [] && a[0] in b && b[0] in a
    ensures a[0] == b[0]
  {
    var i :| 0 <= i < |b| && b[i] == a[0];
    var j :| 0 <= j < |a| && a[j] == b[0];
    if i > 0 && j > 0 {
      LessTransitive(key(a[0]), key(b[0]), key(a[0]));
      LessIrreflexive(key(a[0]));
    }
  }

  lemma TailElements<T>(a: seq<T>, key: T -> string, x: T)
    requires a != [] && StrictlySortedBy(a, key)
    ensures x in a[1..] <==> x in a && x != a[0]
  {
    if x in a[1..] {
      var i :| 0 <= i < |a| - 1 && a[1..][i] == x;
      assert a[i + 1] == x;
      LessIrreflexive(key(x));
    }
    if x in a && x != a[0] {
      var i :| 0 <= i < |a| && a[i] == x;
      assert a[1..][i - 1] == x;
    }
  }

  function InsertBy<T>(x: T, s: seq<T>, key: T -> string): seq<T> {
    if s == [] || Less(key(x), key(s[0])) then [x] + s else [s[0]] + InsertBy(x, s[1..], key)
  }

  /** slices.SortFunc by a string key. */
  function SortBy<T>(s: seq<T>, key: T -> string): seq<T> {
    if s == [] then [] else InsertBy(s[0], SortBy(s[1..], key), key)
  }

  lemma {:induction false} InsertByContents<T>(x: T, s: seq<T>, key: T -> string)
    ensures multiset(InsertBy(x, s, key)) == multiset(s) + multiset{x}
  {
    if !(s == [] || Less(key(x), key(s[0]))) {
      InsertByContents(x, s[1..], key);
      assert s == [s[0]] + s[1..];
    }
  }

  lemma {:induction false} SortByContents<T>(s: seq<T>, key: T -> string)
    ensures multiset(SortBy(s, key)) == multiset(s)
    ensures Elements(SortBy(s, key)) == Elements(s)
    ensures |SortBy(s, key)| == |s|
  {
    if s != [] {
      SortByContents(s[1..], key);
      InsertByContents(s[0], SortBy(s[1..], key), key);
      assert s == [s[0]] + s[1..];
    }
    SameMultisetSameElements(SortBy(s, key), s);
    assert |multiset(SortBy(s, key))| == |multiset(s)|;
  }

  lemma SameMultisetSameElements<T>(a: seq<T>, b: seq<T>)
    requires multiset(a) == multiset(b)
    ensures Elements(a) == Elements(b)
  {
    forall x ensures x in Elements(a) <==> x in Elements(b) {
      assert x in a <==> x in multiset(a);
      assert x in b <==> x in multiset(b);
    }
  }

  lemma {:induction false} InsertBySorts<T>(x: T, s: seq<T>, key: T -> string)
    requires StrictlySortedBy(s, key)
    requires forall y :: y in s ==> key(y) != key(x)
    ensures StrictlySortedBy(InsertBy(x, s, key), key)
  {
    if s == [] {
    } else if Less(key(x), key(s[0])) {
      forall j | 1 <= j < |s| ensures Less(key(x), key(s[j])) {
        LessTransitive(key(x), key(s[0]), key(s[j]));
      }
    } else {
      LessTotal(key(x), key(s[0]));
      InsertBySorts(x, s[1..], key);
      var r := InsertBy(x, s[1..], key);
      InsertByContents(x, s[1..], key);
      forall j | 0 <= j < |r| ensures Less(key(s[0]), key(r[j])) {
        assert r[j] in multiset(r);
        if r[j] != x {
          assert r[j] in s[1..];
        }
      }
    }
  }

  /** Sorting a list whose keys are distinct gives the strictly sorted list. */
  lemma {:induction false} SortBySorts<T>(s: seq<T>, key: T -> string)
    requires DistinctBy(s, key)
    ensures StrictlySortedBy(SortBy(s, key), key)
  {
    if s != [] {
      SortBySorts(s[1..], key);
      SortByContents(s[1..], key);
      forall y | y in SortBy(s[1..], key) ensures key(y) != key(s[0]) {
        assert y in Elements(SortBy(s[1..], key));
        var i :| 0 <= i < |s| - 1 && s[1..][i] == y;
        assert s[i + 1] == y;
      }
      InsertBySorts(s[0], SortBy(s[1..], key), key);
    }
  }

  /** Sorting forgets the order the list arrived in. */
  lemma SortByForgetsOrder<T>(a: seq<T>, b: seq<T>, key: T -> string)
    requires multiset(a) == multiset(b)
    requires DistinctBy(a, key) && DistinctBy(b, key)
    ensures SortBy(a, key) == SortBy(b, key)
  {
    SortBySorts(a, key);
    SortBySorts(b, key);
    SortByContents(a, key);
    SortByContents(b, key);
    SameMultisetSameElements(a, b);
    SortedListsAgree(SortBy(a, key), SortBy(b, key), key);
  }

  /** Text before the first separator, and text after it, are both recoverable. */
  lemma CutIsUnique(a: string, b: string, c: string, d: string, sep: char)
    requires sep !in a && sep !in c
    requires a + [sep] + b == c + [sep] + d
    ensures a == c && b == d
  {
    var s := a + [sep] + b;
    assert s[|a|] == sep && s[|c|] == sep;
    assert forall i :: 0 <= i < |a| ==> s[i] == a[i] != sep;
    assert forall i :: 0 <= i < |c| ==> s[i] == c[i] != sep;
    assert s[..|a|] == a && s[..|c|] == c;
    assert s[|a| + 1..] == b && s[|c| + 1..] == d;
  }

  /** The distinct non-empty entries of a list, in order of first appearance. */
  function Distinct(s: seq<string>): seq<string> {
    if s == [] then []
    else
      var r := Distinct(s[..|s| - 1]);
      var x := s[|s| - 1];
      if x != "" && x !in r then r + [x] else r
  }

  lemma {:induction false} DistinctContents(s: seq<string>)
    ensures Elements(Distinct(s)) == Elements(s) - {""}
    ensures DistinctBy(Distinct(s), Itself)
  {
    if s != [] {
      var p := s[..|s| - 1];
      DistinctContents(p);
      assert s == p + [s[|s| - 1]];
      assert Elements(s) == Elements(p) + {s[|s| - 1]};
      var r := Distinct(p);
      assert Elements(r + [s[|s| - 1]]) == Elements(r) + {s[|s| - 1]};
      if s[|s| - 1] != "" && s[|s| - 1] !in r {
        forall i | 0 <= i < |r| ensures r[i] != s[|s| - 1] {}
      } else if s[|s| - 1] != "" {
        assert s[|s| - 1] in Elements(r);
      }
    }
  }

  /** What dedupe leaves: the sorted list of the distinct non-empty entries. */
  function Dedup(s: seq<string>): seq<string> {
    SortBy(Distinct(s), Itself)
  }

  lemma DedupContents(s: seq<string>)
    ensures StrictlySorted(Dedup(s))
    ensures Elements(Dedup(s)) == Elements(s) - {""}
  {
    DistinctContents(s);
    SortBySorts(Distinct(s), Itself);
    SortByContents(Distinct(s), Itself);
  }

  /** A list is its own dedupe exactly when it is strictly sorted without the empty string. */
  lemma DedupFixesSorted(s: seq<string>)
    ensures Dedup(s) == s <==> StrictlySorted(s) && "" !in s
  {
    DedupContents(s);
    if StrictlySorted(s) && "" !in s {
      assert Elements(s) - {""} == Elements(s);
      SortedListsAgree(Dedup(s), s, Itself);
    }
    if Dedup(s) == s {
      assert "" !in Elements(Dedup(s));
    }
  }

  /** dedupe (towoneltunnel_invite.go): one pass with a seen set, then a sort. */
  method Dedupe(input: seq<string>) returns (out: seq<string>)
    ensures out == Dedup(input)
    ensures StrictlySorted(out) && Elements(out) == Elements(input) - {""}
  {
    var seen: set<string> := {};
    out := [];
    for i := 0 to |input|
      invariant out == Distinct(input[..i])
      invariant seen == Elements(out)
    {
      assert input[..i + 1][..i] == input[..i];
      var s := input[i];
      if s != "" && s !in seen {
        seen := seen + {s};
        out := out + [s];
      }
    }
    assert input[..|input|] == input;
    out := SortBy(out, Itself);
    DedupContents(input);
  }

  /** A list that repeats itself does so in any permutation. */
  lemma RepeatedPlaces<T>(s: seq<T>, r: seq<T>, i: nat, j: nat, p: nat) returns (q: nat)
    requires multiset(s) == multiset(r) && i < j < |s| && s[i] == s[j] && p < |r| && r[p] == s[i]
    ensures q < |r| && p != q && r[q] == s[j]
  {
    assert multiset(s)[s[i]] >= 2 by {
      assert s == s[..j] + [s[j]] + s[j + 1..] && s[i] in s[..j];
    }
    var rest := r[..p] + r[p + 1..];
    assert r == r[..p] + [r[p]] + r[p + 1..];
    assert multiset(r) == multiset(rest) + multiset{r[p]};
    assert s[i] in multiset(rest);
    var k :| 0 <= k < |rest| && rest[k] == s[i];
    q := if k < p then k else k + 1;
  }

  /** Two places of a list are two places of any permutation of it. */
  lemma TwoPlaces<T>(s: seq<T>, r: seq<T>, i: nat, j: nat) returns (p: nat, q: nat)
    requires multiset(s) == multiset(r) && i < j < |s|
    ensures p < |r| && q < |r| && p != q && r[p] == s[i] && r[q] == s[j]
  {
    assert s[i] in multiset(r) && s[j] in multiset(r);
    p :| 0 <= p < |r| && r[p] == s[i];
    if s[i] != s[j] {
      q :| 0 <= q < |r| && r[q] == s[j];
    } else {
      q := RepeatedPlaces(s, r, i, j, p);
    }
  }

  // ---- Go's strings package, on ASCII ----

  predicate IsSpace(c: char) { c == ' ' || '\t' <= c <= '\r' }

  function TrimLeft(s: string): string {
    if s != "" && IsSpace(s[0]) then TrimLeft(s[1..]) else s
  }

  function TrimRight(s: string): string {
    if s != "" && IsSpace(s[|s| - 1]) then TrimRight(s[..|s| - 1]) else s
  }

  function TrimSpace(s: string): string {
    TrimRight(TrimLeft(s))
  }

  function UpperChar(c: char): char {
    if 'a' <= c <= 'z' then c - 'a' + 'A' else c
  }

  function ToUpper(s: string): string {
    seq(|s|, i requires 0 <= i < |s| => UpperChar(s[i]))
  }

  // ---- what trimming leaves ----

  ghost predicate Blank(s: string) {
    forall i :: 0 <= i < |s| ==> s[i] as int in {9, 10, 11, 12, 13, 32}
  }

  /** The text, less the blanks around it. */
  ghost predicate Stripped(raw: string, text: string) {
    && (text != "" ==> !Blank(text[..1]) && !Blank(text[|text| - 1..]))
    && exists a, b :: Blank(a) && Blank(b) && raw == a + text + b
  }

  lemma SpaceIsBlank(c: char)
    ensures IsSpace(c) <==> Blank([c])
  {
    assert [c][0] == c;
  }

  lemma {:induction false} TrimLeftStrips(s: string) returns (a: string)
    ensures Blank(a) && s == a + TrimLeft(s)
    ensures TrimLeft(s) != "" ==> !Blank(TrimLeft(s)[..1])
  {
    if s == "" {
      a := "";
    } else {
      SpaceIsBlank(s[0]);
      assert s[..1] == [s[0]];
      if IsSpace(s[0]) {
        a := TrimLeftStrips(s[1..]);
        assert s == [s[0]] + s[1..];
        a := [s[0]] + a;
      } else {
        a := "";
      }
    }
  }

  lemma {:induction false} TrimRightStrips(s: string) returns (b: string)
    ensures Blank(b) && s == TrimRight(s) + b
    ensures TrimRight(s) != "" ==> !Blank(TrimRight(s)[|TrimRight(s)| - 1..]) && TrimRight(s)[..1] == s[..1]
  {
    if s == "" {
      b := "";
    } else {
      SpaceIsBlank(s[|s| - 1]);
      assert s[|s| - 1..] == [s[|s| - 1]];
      if IsSpace(s[|s| - 1]) {
        b := TrimRightStrips(s[..|s| - 1]);
        assert s == s[..|s| - 1] + [s[|s| - 1]];
        b := b + [s[|s| - 1]];
      } else {
        b := "";
      }
    }
  }

  lemma TrimSpaceStrips(raw: string)
    ensures Stripped(raw, TrimSpace(raw))
  {
    var a := TrimLeftStrips(raw);
    var b := TrimRightStrips(TrimLeft(raw));
    assert raw == a + TrimSpace(raw) + b;
  }

  /** And to nothing else: the first and last character that is no blank are fixed. */
  lemma StrippedOnce(raw: string, s: string, t: string)
    requires Stripped(raw, s) && Stripped(raw, t)
    ensures s == t
  {
    var a, b :| Blank(a) && Blank(b) && raw == a + s + b;
    var c, d :| Blank(c) && Blank(d) && raw == c + t + d;
    if s == "" || t == "" {
      OnlyBlanks(raw, a, s, b);
      OnlyBlanks(raw, c, t, d);
    } else {
      BlankUpTo(raw, a, s, b);
      BlankUpTo(raw, c, t, d);
      BlankFrom(raw, a, s, b);
      BlankFrom(raw, c, t, d);
      assert s == raw[|a|..|raw| - |b|] && t == raw[|c|..|raw| - |d|];
    }
  }

  lemma OnlyBlanks(raw: string, a: string, s: string, b: string)
    requires Blank(a) && Blank(b) && raw == a + s + b
    requires s != "" ==> !Blank(s[..1])
    ensures Blank(raw) <==> s == ""
  {
    if s != "" {
      assert raw[|a|] == s[0] && s[..1] == [s[0]];
    }
  }

  lemma BlankUpTo(raw: string, a: string, s: string, b: string)
    requires Blank(a) && raw == a + s + b && s != "" && !Blank(s[..1])
    ensures |a| < |raw| && !Blank([raw[|a|]]) && forall i :: 0 <= i < |a| ==> Blank([raw[i]])
  {
    assert raw[|a|] == s[0] && s[..1] == [s[0]];
  }

  lemma BlankFrom(raw: string, a: string, s: string, b: string)
    requires Blank(b) && raw == a + s + b && s != "" && !Blank(s[|s| - 1..])
    ensures !Blank([raw[|raw| - |b| - 1]]) && forall i :: |raw| - |b| <= i < |raw| ==> Blank([raw[i]])
  {
    assert raw[|raw| - |b| - 1] == s[|s| - 1] && s[|s| - 1..] == [s[|s| - 1]];
    forall i | |raw| - |b| <= i < |raw| ensures Blank([raw[i]]) {
      assert raw[i] == b[i - (|raw| - |b|)];
    }
  }

  lemma StrippedIsTrimmed(raw: string, text: string)
    ensures Stripped(raw, text) <==> text == TrimSpace(raw)
  {
    TrimSpaceStrips(raw);
    if Stripped(raw, text) {
      StrippedOnce(raw, text, TrimSpace(raw));
    }
  }

  lemma BlankIsNothing(raw: string)
    requires Blank(raw)
    ensures Stripped(raw, "")
  {
    assert Blank("") && raw == raw + "" + "";
  }

  // ---- comma-separated text ----

  /** The entries, commas between them. */
  function CommaJoined(ps: seq<string>): string
    requires ps != []
  {
    if |ps| == 1 then ps[0] else CommaJoined(ps[..|ps| - 1]) + "," + ps[|ps| - 1]
  }

  lemma CommaJoinedMore(front: seq<string>, x: string)
    ensures CommaJoined(front + [x]) == if front == [] then x else CommaJoined(front) + "," + x
  {
    var ps := front + [x];
    assert ps[..|ps| - 1] == front && ps[|ps| - 1] == x;
  }
}
