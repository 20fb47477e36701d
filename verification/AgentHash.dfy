/** The rollout hash: what it is taken of, and why equal hashes mean equal configs. */
module AgentHash {
  import opened Text
  import opened Conventions
  import opened AgentRender

  const NUL: char := '\0'
  const GSO_FIELD := "TOWONEL_DISABLE_UDP_GSO=true"

  predicate NulFree(s: string) { NUL !in s }

  /** The fields the hash always covers, in order. */
  function MainFields(c: Config): seq<string> {
    [c.image, c.inviteID, c.servicesJSON, c.tcpJSON, c.udpJSON, c.relayURL, c.saName, c.connEnvHash]
  }

  /** The two that are written only when set, so that older hashes stay. */
  function OptionalFields(c: Config): seq<string> {
    (if c.disableUDPGSO then [GSO_FIELD] else []) + (if c.extraEnvHash != "" then [c.extraEnvHash] else [])
  }

  function Fields(c: Config): seq<string> {
    MainFields(c) + OptionalFields(c)
  }

  /** Each field, then a NUL. */
  function Terminated(fs: seq<string>): string {
    if fs == [] then "" else Terminated(fs[..|fs| - 1]) + fs[|fs| - 1] + [NUL]
  }

  /** The text hash() feeds to SHA-256. */
  function HashInput(c: Config): string {
    Terminated(Fields(c))
  }

  lemma TerminatedAppend(fs: seq<string>, f: string)
    ensures Terminated(fs + [f]) == Terminated(fs) + f + [NUL]
  {}

  lemma TerminatedStep(fs: seq<string>, i: nat)
    requires i < |fs|
    ensures Terminated(fs[..i + 1]) == Terminated(fs[..i]) + fs[i] + [NUL]
  {
    assert fs[..i + 1] == fs[..i] + [fs[i]];
    TerminatedAppend(fs[..i], fs[i]);
  }

  lemma FourSteps(fs: seq<string>, i: nat)
    requires i + 4 <= |fs|
    ensures Terminated(fs[..i + 4])
            == Terminated(fs[..i]) + fs[i] + [NUL] + fs[i + 1] + [NUL] + fs[i + 2] + [NUL] + fs[i + 3] + [NUL]
  {
    hide Terminated;
    TerminatedStep(fs, i);
    TerminatedStep(fs, i + 1);
    TerminatedStep(fs, i + 2);
    TerminatedStep(fs, i + 3);
  }

  lemma MainText(c: Config)
    ensures Terminated(MainFields(c))
            == c.image + [NUL] + c.inviteID + [NUL] + c.servicesJSON + [NUL] + c.tcpJSON + [NUL] + c.udpJSON + [NUL]
               + c.relayURL + [NUL] + c.saName + [NUL] + c.connEnvHash + [NUL]
  {
    var fs := MainFields(c);
    assert Terminated(fs[..0]) == "";
    hide Terminated;
    FourSteps(fs, 0);
    FourSteps(fs, 4);
    assert fs[..8] == fs;
  }

  /** Written out: eight fields, then the two that may be missing, each ended by a NUL. */
  lemma HashInputIs(c: Config)
    ensures HashInput(c)
            == c.image + [NUL] + c.inviteID + [NUL] + c.servicesJSON + [NUL] + c.tcpJSON + [NUL] + c.udpJSON + [NUL]
               + c.relayURL + [NUL] + c.saName + [NUL] + c.connEnvHash + [NUL]
               + (if c.disableUDPGSO then "TOWONEL_DISABLE_UDP_GSO=true" + [NUL] else "")
               + (if c.extraEnvHash != "" then c.extraEnvHash + [NUL] else "")
  {
    MainText(c);
    var main := MainFields(c);
    var gso := if c.disableUDPGSO then [GSO_FIELD] else [];
    var text := Terminated(main);
    TerminatedAppend(main, GSO_FIELD);
    TerminatedAppend(main + gso, c.extraEnvHash);
    hide Terminated, MainFields;
    assert main + gso == if c.disableUDPGSO then main + [GSO_FIELD] else main;
    assert Fields(c) == if c.extraEnvHash != "" then main + gso + [c.extraEnvHash] else main + gso;
    assert text + GSO_FIELD + [NUL] == text + (GSO_FIELD + [NUL]);
    var front := Terminated(main + gso);
    assert front + c.extraEnvHash + [NUL] == front + (c.extraEnvHash + [NUL]) && front + "" == front;
  }

  /** hash, with the digest's first argument written piece by piece. */
  method Hash(c: Config, digest: string -> string) returns (sum: string)
    ensures sum == digest(HashInput(c))
  {
    var h := "";
    var fields := MainFields(c);
    for i := 0 to |fields|
      invariant h == Terminated(fields[..i])
    {
      assert fields[..i + 1] == fields[..i] + [fields[i]];
      TerminatedAppend(fields[..i], fields[i]);
      h := h + fields[i];
      h := h + [NUL];
    }
    assert fields[..|fields|] == fields;
    ghost var written := fields;
    if c.disableUDPGSO {
      TerminatedAppend(written, GSO_FIELD);
      written := written + [GSO_FIELD];
      h := h + GSO_FIELD;
      h := h + [NUL];
    }
    if c.extraEnvHash != "" {
      TerminatedAppend(written, c.extraEnvHash);
      written := written + [c.extraEnvHash];
      h := h + c.extraEnvHash;
      h := h + [NUL];
    }
    assert written == Fields(c);
    sum := digest(h);
  }

  ghost predicate AllNulFree(fs: seq<string>) {
    forall i :: 0 <= i < |fs| ==> NulFree(fs[i])
  }

  /** NUL-free fields can be read back from the text. */
  lemma {:induction false} TerminatedInjective(fs: seq<string>, gs: seq<string>)
    requires AllNulFree(fs) && AllNulFree(gs) && Terminated(fs) == Terminated(gs)
    ensures fs == gs
  {
    if fs == [] || gs == [] {
      assert |Terminated(fs)| > 0 || fs == [];
      assert |Terminated(gs)| > 0 || gs == [];
    } else {
      var p, f, q, g := fs[..|fs| - 1], fs[|fs| - 1], gs[..|gs| - 1], gs[|gs| - 1];
      LastFieldUnique(Terminated(p), f, Terminated(q), g);
      TerminatedEnds(p);
      TerminatedEnds(q);
      LastFieldIsWhole(Terminated(p), f, Terminated(q), g);
      TerminatedInjective(p, q);
      assert fs == p + [f] && gs == q + [g];
    }
  }

  lemma TerminatedEnds(fs: seq<string>)
    ensures Terminated(fs) == "" || Terminated(fs)[|Terminated(fs)| - 1] == NUL
  {}

  lemma LastFieldUnique(a: string, f: string, b: string, g: string)
    requires a + f + [NUL] == b + g + [NUL]
    ensures a + f == b + g
  {
    assert (a + f + [NUL])[..|a + f|] == a + f;
    assert (b + g + [NUL])[..|b + g|] == b + g;
  }

  lemma TerminatorNotInField(s: string, a: string, f: string, b: string)
    requires s == a + f && NulFree(f) && b <= s && (b == "" || b[|b| - 1] == NUL)
    ensures |b| <= |a|
  {}

  /** Of two readings of one text, neither field can reach into the other's terminator. */
  lemma LastFieldIsWhole(a: string, f: string, b: string, g: string)
    requires a + f == b + g && NulFree(f) && NulFree(g)
    requires a == "" || a[|a| - 1] == NUL
    requires b == "" || b[|b| - 1] == NUL
    ensures a == b && f == g
  {
    var s := a + f;
    TerminatorNotInField(s, a, f, b);
    TerminatorNotInField(s, b, g, a);
    assert s[..|a|] == a && s[..|b|] == b && s[|a|..] == f && s[|b|..] == g;
  }

  /** The eight fields and the flag agree, and so does the extra environment. */
  ghost predicate SameHashed(c: Config, d: Config) {
    && MainFields(c) == MainFields(d) && c.disableUDPGSO == d.disableUDPGSO && c.extraEnvHash == d.extraEnvHash
  }

  /** Whatever the fields hold, as long as none holds a NUL, only the optional ones can be confused. */
  lemma HashInputDecodesIff(c: Config, d: Config)
    requires AllNulFree(Fields(c)) && AllNulFree(Fields(d))
    ensures HashInput(c) == HashInput(d) <==> MainFields(c) == MainFields(d) && OptionalFields(c) == OptionalFields(d)
  {
    if HashInput(c) == HashInput(d) {
      TerminatedInjective(Fields(c), Fields(d));
      assert Fields(c)[..8] == MainFields(c) && Fields(c)[8..] == OptionalFields(c);
      assert Fields(d)[..8] == MainFields(d) && Fields(d)[8..] == OptionalFields(d);
    }
  }

  /** What JSON gives for a list: nothing, or text opening with a bracket. */
  predicate IsListJSON(s: string) { s == "" || s[0] == '[' }

  /** An encoded list is never the GSO marker, so the optional fields tell themselves apart. */
  lemma HashInputDecodes(c: Config, d: Config)
    requires AllNulFree(Fields(c)) && AllNulFree(Fields(d))
    requires IsListJSON(c.extraEnvHash) && IsListJSON(d.extraEnvHash)
    ensures HashInput(c) == HashInput(d) <==> SameHashed(c, d)
  {
    HashInputDecodesIff(c, d);
    assert GSO_FIELD[0] == 'T';
    var x, y := OptionalFields(c), OptionalFields(d);
    if x == y {
      assert |x| == |y|;
      assert |x| > 0 ==> x[0] == y[0] && x[|x| - 1] == y[|y| - 1];
    }
  }

  /** Without the bracket the two optional fields could be confused. */
  lemma MarkerCouldBeConfused(c: Config) returns (d: Config, e: Config)
    ensures HashInput(d) == HashInput(e) && !SameHashed(d, e)
  {
    d := c.(disableUDPGSO := true, extraEnvHash := "");
    e := c.(disableUDPGSO := false, extraEnvHash := GSO_FIELD);
    assert |GSO_FIELD| > 0;
    assert OptionalFields(d) == OptionalFields(e);
  }

  /** And a field holding a NUL could pass for two. */
  lemma NulCouldBeConfused(c: Config) returns (d: Config, e: Config)
    ensures HashInput(d) == HashInput(e) && !SameHashed(d, e)
  {
    d := c.(image := "", inviteID := [NUL]);
    e := c.(image := [NUL], inviteID := "");
    var rest := [c.servicesJSON, c.tcpJSON, c.udpJSON, c.relayURL, c.saName, c.connEnvHash] + OptionalFields(c);
    assert Fields(d) == ["", [NUL]] + rest && Fields(e) == [[NUL], ""] + rest;
    TwoFields("", [NUL]);
    TwoFields([NUL], "");
    TerminatedPrefix(["", [NUL]], [[NUL], ""], rest);
    assert MainFields(d)[0] != MainFields(e)[0];
  }

  lemma TwoFields(f: string, g: string)
    ensures Terminated([f, g]) == f + [NUL] + g + [NUL]
  {
    assert [f, g][..1] == [f] && [f][..0] == [];
    assert Terminated([f]) == f + [NUL];
  }

  lemma {:induction false} TerminatedPrefix(a: seq<string>, b: seq<string>, rest: seq<string>)
    requires Terminated(a) == Terminated(b)
    ensures Terminated(a + rest) == Terminated(b + rest)
  {
    if rest == [] {
      assert a + rest == a && b + rest == b;
    } else {
      var p, f := rest[..|rest| - 1], rest[|rest| - 1];
      TerminatedPrefix(a, b, p);
      TerminatedAppend(a + p, f);
      TerminatedAppend(b + p, f);
      assert a + rest == a + p + [f] && b + rest == b + p + [f];
    }
  }
}
