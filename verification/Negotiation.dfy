/** The text of a version, as sections 2, 9 and 10 of Semantic Versioning 2.0.0 write it. */
module VersionText {
  import opened Common
  import opened Semver

  const MAX_SAFE_INTEGER := 9007199254740991

  // ----- Cutting and splitting text -----

  datatype Halves = Halves(head: string, tail: Option<string>)

  /** The text before and after the first `c`. */
  function Cut(s: string, c: char): (h: Halves)
    ensures |h.head| <= |s| && (h.tail.Some? ==> |h.tail.value| < |s|)
  {
    if s == "" then Halves("", None)
    else if s[0] == c then Halves("", Some(s[1..]))
    else var h := Cut(s[1..], c); Halves([s[0]] + h.head, h.tail)
  }

  function Glue(h: Halves, c: char): string {
    if h.tail.Some? then h.head + ([c] + h.tail.value) else h.head
  }

  lemma {:induction false} GlueOfCut(s: string, c: char)
    ensures Glue(Cut(s, c), c) == s && c !in Cut(s, c).head
  {
    if s != "" && s[0] != c {
      GlueOfCut(s[1..], c);
      var h := Cut(s[1..], c);
      assert s == [s[0]] + s[1..];
      assert h.tail.Some? ==> [s[0]] + h.head + ([c] + h.tail.value) == [s[0]] + (h.head + ([c] + h.tail.value));
    }
  }

  lemma {:induction false} CutOfGlue(h: Halves, c: char)
    requires c !in h.head
    ensures Cut(Glue(h, c), c) == h
    decreases |h.head|
  {
    if h.head != "" {
      var rest := Halves(h.head[1..], h.tail);
      CutOfGlue(rest, c);
      assert h.head == [h.head[0]] + rest.head;
      assert h.head[0] in h.head;
      assert Glue(h, c) == [h.head[0]] + Glue(rest, c);
    } else if h.tail.Some? {
      assert Glue(h, c)[1..] == h.tail.value;
    }
  }

  function Split(s: string, c: char): (r: seq<string>)
    ensures r != []
    decreases |s|
  {
    var h := Cut(s, c);
    [h.head] + (if h.tail.Some? then Split(h.tail.value, c) else [])
  }

  function Join(pieces: seq<string>, c: char): string
    requires pieces != []
  {
    if |pieces| == 1 then pieces[0] else Glue(Halves(pieces[0], Some(Join(pieces[1..], c))), c)
  }

  ghost predicate NoneHas(pieces: seq<string>, c: char) {
    forall i :: 0 <= i < |pieces| ==> c !in pieces[i]
  }

  lemma {:induction false} JoinOfSplit(s: string, c: char)
    ensures Join(Split(s, c), c) == s
    decreases |s|
  {
    GlueOfCut(s, c);
    var h := Cut(s, c);
    if h.tail.Some? {
      JoinOfSplit(h.tail.value, c);
      assert Split(s, c)[1..] == Split(h.tail.value, c);
    }
  }

  lemma {:induction false} SplitOfJoin(pieces: seq<string>, c: char)
    requires pieces != [] && NoneHas(pieces, c)
    ensures Split(Join(pieces, c), c) == pieces
  {
    if |pieces| == 1 {
      CutOfGlue(Halves(pieces[0], None), c);
    } else {
      SplitOfJoin(pieces[1..], c);
      CutOfGlue(Halves(pieces[0], Some(Join(pieces[1..], c))), c);
      assert pieces == [pieces[0]] + pieces[1..];
    }
  }

  lemma {:induction false} JoinMembers(pieces: seq<string>, c: char, d: char)
    requires pieces != [] && NoneHas(pieces, d) && c != d
    ensures d !in Join(pieces, c)
  {
    if |pieces| > 1 {
      JoinMembers(pieces[1..], c, d);
    }
  }

  // ----- The grammar -----

  datatype Parts = Parts(core: seq<string>, prerelease: Option<seq<string>>, build: Option<seq<string>>)

  predicate IdentifierChar(c: char) {
    Digit(c) || 'A' <= c <= 'Z' || 'a' <= c <= 'z' || c == '-'
  }

  predicate Identifier(s: string) {
    s != "" && forall i :: 0 <= i < |s| ==> IdentifierChar(s[i])
  }

  predicate NoLeadingZero(s: string) {
    Numeric(s) && |s| > 1 ==> s[0] != '0'
  }

  predicate CorePart(s: string) {
    Numeric(s) && NoLeadingZero(s)
  }

  predicate PrereleasePart(s: string) {
    Identifier(s) && NoLeadingZero(s)
  }

  predicate Grammatical(p: Parts) {
    && |p.core| == 3 && (forall i :: 0 <= i < 3 ==> CorePart(p.core[i]))
    && (p.prerelease.Some? ==>
          p.prerelease.value != [] && forall i :: 0 <= i < |p.prerelease.value| ==> PrereleasePart(p.prerelease.value[i]))
    && (p.build.Some? ==>
          p.build.value != [] && forall i :: 0 <= i < |p.build.value| ==> Identifier(p.build.value[i]))
  }

  function JoinAll(pieces: Option<seq<string>>): Option<string>
    requires pieces.Some? ==> pieces.value != []
  {
    if pieces.Some? then Some(Join(pieces.value, '.')) else None
  }

  function SplitAll(text: Option<string>): (r: Option<seq<string>>)
    ensures r.Some? ==> r.value != []
  {
    if text.Some? then Some(Split(text.value, '.')) else None
  }

  /** The text of a version: `core`, then `-prerelease`, then `+build`. */
  function Render(p: Parts): string
    requires p.core != [] && (p.prerelease.Some? ==> p.prerelease.value != []) && (p.build.Some? ==>
      p.build.value != [])
  {
    Glue(Halves(Glue(Halves(Join(p.core, '.'), JoinAll(p.prerelease)), '-'), JoinAll(p.build)), '+')
  }

  function TakeApart(s: string): (p: Parts)
    ensures p.core != [] && (p.prerelease.Some? ==> p.prerelease.value != []) && (p.build.Some? ==> p.build.value != [])
  {
    var outer := Cut(s, '+');
    var inner := Cut(outer.head, '-');
    Parts(Split(inner.head, '.'), SplitAll(inner.tail), SplitAll(outer.tail))
  }

  lemma RenderOfTakeApart(s: string)
    ensures Render(TakeApart(s)) == s
  {
    hide Cut; hide Glue; hide Split; hide Join;
    GlueOfCut(s, '+');
    var outer := Cut(s, '+');
    GlueOfCut(outer.head, '-');
    var inner := Cut(outer.head, '-');
    JoinOfSplit(inner.head, '.');
    if inner.tail.Some? {
      JoinOfSplit(inner.tail.value, '.');
    }
    if outer.tail.Some? {
      JoinOfSplit(outer.tail.value, '.');
    }
  }

  lemma CorePartsHaveNo(pieces: seq<string>, c: char)
    requires forall i :: 0 <= i < |pieces| ==> CorePart(pieces[i])
    requires c in "-+."
    ensures NoneHas(pieces, c)
  {
    forall i | 0 <= i < |pieces| ensures c !in pieces[i] {
      assert CorePart(pieces[i]);
    }
  }

  lemma IdentifiersHaveNo(pieces: seq<string>, c: char)
    requires forall i :: 0 <= i < |pieces| ==> Identifier(pieces[i])
    requires c in "+."
    ensures NoneHas(pieces, c)
  {
    forall i | 0 <= i < |pieces| ensures c !in pieces[i] {
      assert Identifier(pieces[i]);
    }
  }

  lemma TakeApartOfRender(p: Parts)
    requires Grammatical(p)
    ensures TakeApart(Render(p)) == p
  {
    hide Cut; hide Split; hide Join; hide CorePart; hide Identifier; hide NoLeadingZero;
    CorePartsHaveNo(p.core, '-');
    CorePartsHaveNo(p.core, '+');
    CorePartsHaveNo(p.core, '.');
    JoinMembers(p.core, '.', '-');
    JoinMembers(p.core, '.', '+');
    SplitOfJoin(p.core, '.');
    if p.prerelease.Some? {
      IdentifiersHaveNo(p.prerelease.value, '+');
      IdentifiersHaveNo(p.prerelease.value, '.');
      JoinMembers(p.prerelease.value, '.', '+');
      SplitOfJoin(p.prerelease.value, '.');
    }
    if p.build.Some? {
      IdentifiersHaveNo(p.build.value, '.');
      SplitOfJoin(p.build.value, '.');
    }
    var inner := Halves(Join(p.core, '.'), JoinAll(p.prerelease));
    CutOfGlue(inner, '-');
    CutOfGlue(Halves(Glue(inner, '-'), JoinAll(p.build)), '+');
  }

  function ToVersion(p: Parts, original: string): Version
    requires |p.core| == 3
  {
    Version(Value(p.core[0]), Value(p.core[1]), Value(p.core[2]), p.prerelease, original)
  }

  /** The parts of a version text, if it is one and its numbers are safe integers. */
  function Parse(s: string): Option<Version> {
    var p := TakeApart(s);
    if !Grammatical(p) then None else
      var v := ToVersion(p, s);
      if v.major <= MAX_SAFE_INTEGER && v.minor <= MAX_SAFE_INTEGER && v.patch <= MAX_SAFE_INTEGER then Some(v) else None
  }

  /** A text is a version exactly if it is the rendering of grammatical parts with safe numbers, in
      one way only; and what parsing yields obeys the rules that the comparison relies on. */
  lemma ParsesExactlyTheGrammar(s: string, v: Version)
    ensures Parse(s) == Some(v) <==>
      exists p :: Grammatical(p) && Render(p) == s && v == ToVersion(p, s)
                  && v.major <= MAX_SAFE_INTEGER && v.minor <= MAX_SAFE_INTEGER && v.patch <= MAX_SAFE_INTEGER
    ensures Parse(s) == Some(v) ==> ValidVersion(v) && v.original == s
  {
    hide Render; hide TakeApart; hide Value; hide CorePart; hide PrereleasePart; hide Identifier;
    RenderOfTakeApart(s);
    if Grammatical(TakeApart(s)) {
      GrammaticalFacts(TakeApart(s), s);
    }
    if p :| Grammatical(p) && Render(p) == s {
      TakeApartOfRender(p);
    }
    forall p | Grammatical(p) && Render(p) == s ensures p == TakeApart(s) {
      TakeApartOfRender(p);
    }
  }

  lemma GrammaticalFacts(p: Parts, s: string)
    requires Grammatical(p)
    ensures ValidVersion(ToVersion(p, s))
  {
    hide Value;
    if p.prerelease.Some? {
      forall i | 0 <= i < |p.prerelease.value| ensures ValidIdentifier(p.prerelease.value[i]) {
        assert PrereleasePart(p.prerelease.value[i]);
      }
    }
  }
}

/** Which version two peers agree on. */
module Negotiation {
  import opened Common
  import opened Sequences
  import opened Sorting
  import opened Semver
  import opened VersionText

  function ListedIn(local: seq<string>): string -> bool {
    (s: string) => s in local
  }

  /** `map(parseVersion)` and dropping what does not parse. */
  function ParseEach(s: seq<string>): seq<Version> {
    if s == [] then [] else
      var v := Parse(s[|s| - 1]);
      ParseEach(s[..|s| - 1]) + (if v.Some? then [v.value] else [])
  }

  function Candidates(remote: seq<string>, local: seq<string>): seq<Version> {
    ParseEach(Keep(remote, ListedIn(local)))
  }

  function Negotiate(remote: seq<string>, local: seq<string>): Option<string> {
    var sorted := Sort(Candidates(remote, local), CompareVersions);
    if sorted == [] then None else Some(sorted[|sorted| - 1].original)
  }

  /** A version that both peers list and both can read. */
  predicate Mutual(remote: seq<string>, local: seq<string>, s: string) {
    s in remote && s in local && Parse(s).Some?
  }

  lemma CandidatesStep(remote: seq<string>, local: seq<string>)
    requires remote != []
    ensures var front, s := remote[..|remote| - 1], remote[|remote| - 1];
      Candidates(remote, local) ==
        Candidates(front, local) + (if s in local && Parse(s).Some? then [Parse(s).value] else [])
  {
    hide Parse;
    var front, s := remote[..|remote| - 1], remote[|remote| - 1];
    var kept := Keep(front, ListedIn(local));
    if s in local {
      assert (kept + [s])[..|kept|] == kept;
    }
  }

  lemma ParseKeepsText(s: string)
    requires Parse(s).Some?
    ensures Parse(s).value.original == s
  {
    ParsesExactlyTheGrammar(s, Parse(s).value);
  }

  /** The place of the last element of the sorted candidates in the remote list. */
  ghost predicate Best(remote: seq<string>, local: seq<string>, v: Version, i: nat) {
    && i < |remote| && remote[i] in local && Parse(remote[i]) == Some(v)
    && (forall j :: 0 <= j < i && remote[j] in local && Parse(remote[j]).Some? ==>
          CompareVersions(Parse(remote[j]).value, v) <= 0)
    && (forall j :: i < j < |remote| && remote[j] in local && Parse(remote[j]).Some? ==>
          CompareVersions(Parse(remote[j]).value, v) < 0)
  }

  ghost predicate IsBest(remote: seq<string>, local: seq<string>, v: Version) {
    exists i :: Best(remote, local, v, i)
  }

  lemma {:induction false} LastOfSorted(remote: seq<string>, local: seq<string>)
    ensures var sorted := Sort(Candidates(remote, local), CompareVersions);
      if sorted == [] then forall s :: !Mutual(remote, local, s)
      else IsBest(remote, local, sorted[|sorted| - 1])
  {
    hide CompareVersions; hide Parse; hide Candidates;
    if remote == [] {
      NoCandidates(local);
    } else {
      var front, s := remote[..|remote| - 1], remote[|remote| - 1];
      CandidatesStep(remote, local);
      LastOfSorted(front, local);
      var before, cs := Sort(Candidates(front, local), CompareVersions), Candidates(front, local);
      if s in local && Parse(s).Some? {
        var v := Parse(s).value;
        assert (cs + [v])[..|cs|] == cs;
        if before == [] || CompareVersions(before[|before| - 1], v) <= 0 {
          NewBest(remote, local, v);
        } else {
          var i: nat :| Best(front, local, before[|before| - 1], i);
          OldBest(remote, local, before[|before| - 1], i);
        }
      } else {
        assert cs + [] == cs;
        if before != [] {
          var i: nat :| Best(front, local, before[|before| - 1], i);
          OldBest(remote, local, before[|before| - 1], i);
        } else {
          forall t | t in remote && t in local ensures Parse(t).None? {
            assert t in front ==> !Mutual(front, local, t);
          }
        }
      }
    }
  }

  lemma NoCandidates(local: seq<string>)
    ensures Candidates([], local) == []
  {
  }

  lemma OldBest(remote: seq<string>, local: seq<string>, v: Version, i: nat)
    requires remote != [] && Best(remote[..|remote| - 1], local, v, i)
    requires var s := remote[|remote| - 1];
      s in local && Parse(s).Some? ==> CompareVersions(v, Parse(s).value) > 0
    ensures Best(remote, local, v, i)
  {
    hide CompareVersions; hide Parse;
    var s := remote[|remote| - 1];
    if s in local && Parse(s).Some? {
      VersionFlip(Parse(s).value, v);
    }
    forall j | 0 <= j < |remote| - 1 ensures remote[j] == remote[..|remote| - 1][j] {
    }
  }

  lemma NewBest(remote: seq<string>, local: seq<string>, v: Version)
    requires remote != []
    requires var s := remote[|remote| - 1]; s in local && Parse(s) == Some(v)
    requires var front := remote[..|remote| - 1];
      || (forall t :: !Mutual(front, local, t))
      || exists w :: IsBest(front, local, w) && CompareVersions(w, v) <= 0
    ensures Best(remote, local, v, |remote| - 1)
  {
    hide CompareVersions; hide Parse;
    var front := remote[..|remote| - 1];
    forall j | 0 <= j < |front| && remote[j] in local && Parse(remote[j]).Some?
      ensures CompareVersions(Parse(remote[j]).value, v) <= 0
    {
      assert front[j] == remote[j] && Mutual(front, local, front[j]);
      var w :| IsBest(front, local, w) && CompareVersions(w, v) <= 0;
      var i: nat :| Best(front, local, w, i);
      VersionFlip(w, w);
      VersionTransitive(Parse(front[j]).value, w, v);
    }
  }

  /** The negotiated version is one that both peers list verbatim; no version that they share ranks
      above it, in the sense of section 11; among equals it is the last in the remote peer's list;
      and there is one exactly if the peers share any version at all. */
  lemma NegotiatesTheHighest(remote: seq<string>, local: seq<string>)
    ensures match Negotiate(remote, local)
      case None => forall s :: !Mutual(remote, local, s)
      case Some(chosen) =>
        && Mutual(remote, local, chosen)
        && (forall s :: Mutual(remote, local, s) ==> !Precedes(Parse(chosen).value, Parse(s).value))
        && exists i :: 0 <= i < |remote| && remote[i] == chosen
             && forall j :: i < j < |remote| && Mutual(remote, local, remote[j]) ==>
                  Precedes(Parse(remote[j]).value, Parse(chosen).value)
  {
    hide CompareVersions; hide Parse; hide Candidates; hide Precedes; hide Sort;
    LastOfSorted(remote, local);
    var sorted := Sort(Candidates(remote, local), CompareVersions);
    if sorted != [] {
      var v := sorted[|sorted| - 1];
      var i: nat :| Best(remote, local, v, i);
      ParseKeepsText(remote[i]);
      assert remote[i] in remote;
      forall s | Mutual(remote, local, s) ensures !Precedes(v, Parse(s).value) {
        var j :| 0 <= j < |remote| && remote[j] == s;
        RankOf(s, remote[i]);
      }
      forall j | i < j < |remote| && Mutual(remote, local, remote[j]) ensures Precedes(Parse(remote[j]).value, v) {
        RankOf(remote[j], remote[i]);
      }
    }
  }

  lemma RankOf(s: string, t: string)
    requires Parse(s).Some? && Parse(t).Some?
    ensures var a, b := Parse(s).value, Parse(t).value;
      && (CompareVersions(a, b) < 0 <==> Precedes(a, b))
      && (CompareVersions(a, b) > 0 <==> Precedes(b, a))
      && (CompareVersions(a, b) == 0 <==> SameRank(a, b))
  {
    hide CompareVersions; hide Parse; hide Precedes;
    ParsesExactlyTheGrammar(s, Parse(s).value);
    ParsesExactlyTheGrammar(t, Parse(t).value);
    ComparatorIsPrecedence(Parse(s).value, Parse(t).value);
  }

  /** It does not matter which peer's list is taken as the remote one, up to build metadata. */
  lemma EitherPeerAgrees(mine: seq<string>, yours: seq<string>)
    ensures var a, b := Negotiate(mine, yours), Negotiate(yours, mine);
      && a.Some? == b.Some?
      && (a.Some? ==>
            Parse(a.value).Some? && Parse(b.value).Some? && SameRank(Parse(a.value).value, Parse(b.value).value))
  {
    hide Parse; hide Precedes; hide Negotiate; hide CompareVersions;
    NegotiatesTheHighest(mine, yours);
    NegotiatesTheHighest(yours, mine);
    var a, b := Negotiate(mine, yours), Negotiate(yours, mine);
    assert a.Some? ==> Mutual(yours, mine, a.value);
    assert b.Some? ==> Mutual(mine, yours, b.value);
    if a.Some? && b.Some? {
      RankOf(a.value, b.value);
    }
  }

  // ----- The two versions there are -----

  lemma ThreeParts(a: string, b: string, c: string)
    ensures Render(Parts([a, b, c], None, None)) == a + ("." + (b + ("." + c)))
  {
    hide Cut;
    var pieces := [a, b, c];
    assert pieces[1..] == [b, c] && [b, c][1..] == [c];
    assert Join([c], '.') == c;
    assert Join([b, c], '.') == b + (['.'] + c);
    assert Join(pieces, '.') == a + (['.'] + Join([b, c], '.'));
  }

  lemma OneDigit(c: char)
    requires Digit(c)
    ensures CorePart([c]) && Value([c]) == (c - '0') as nat
  {
  }

  lemma CoreOf(a: char, b: char, c: char)
    requires Digit(a) && Digit(b) && Digit(c)
    ensures var s := [a] + ("." + ([b] + ("." + [c])));
      Parse(s) == Some(Version((a - '0') as nat, (b - '0') as nat, (c - '0') as nat, None, s))
  {
    hide Parse; hide Render; hide CorePart; hide Value;
    var p := Parts([[a], [b], [c]], None, None);
    var s := [a] + ("." + ([b] + ("." + [c])));
    ThreeParts([a], [b], [c]);
    OneDigit(a);
    OneDigit(b);
    OneDigit(c);
    assert Grammatical(p);
    ParsesExactlyTheGrammar(s, ToVersion(p, s));
  }

  lemma TheTwoVersions()
    ensures Parse("1.1.0") == Some(Version(1, 1, 0, None, "1.1.0"))
    ensures Parse("1.0.0") == Some(Version(1, 0, 0, None, "1.0.0"))
  {
    hide Parse;
    CoreOf('1', '1', '0');
    CoreOf('1', '0', '0');
    assert ['1'] + ("." + (['1'] + ("." + ['0']))) == "1.1.0";
    assert ['1'] + ("." + (['0'] + ("." + ['0']))) == "1.0.0";
  }

  /** With versions 1.1.0 and 1.0.0 supported, the newer one is chosen if the other peer lists it, else the
      older one if it lists that, else none. */
  lemma NewerIsChosen(remote: seq<string>)
    ensures Negotiate(remote, ["1.1.0", "1.0.0"]) ==
      if "1.1.0" in remote then Some("1.1.0") else if "1.0.0" in remote then Some("1.0.0") else None
  {
    hide Parse; hide Negotiate;
    TheTwoVersions();
    var local := ["1.1.0", "1.0.0"];
    NegotiatesTheHighest(remote, local);
    assert "1.1.0" in remote ==> Mutual(remote, local, "1.1.0");
    assert "1.0.0" in remote ==> Mutual(remote, local, "1.0.0");
    assert Precedes(Parse("1.0.0").value, Parse("1.1.0").value);
  }
}
