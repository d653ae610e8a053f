/** The names and addresses under which the Bridge exposes a browser's capabilities. */
module Names {
  import opened Capabilities
  import Base64

  const APP_PREFIX_LENGTH := 20
  const LOCAL_NAME_LENGTH := 70
  const FINGERPRINT_LENGTH := 16

  // ----- safeName -----

  predicate Alphanumeric(c: char) {
    'A' <= c <= 'Z' || 'a' <= c <= 'z' || '0' <= c <= '9'
  }

  predicate Separator(c: char) {
    c == '_' || c == '.' || c == '-'
  }

  predicate Permitted(c: char) {
    Alphanumeric(c) || Separator(c)
  }

  /** Each run of other characters becomes one underscore. */
  function Collapse(s: string, inRun: bool): string {
    if s == "" then ""
    else if Permitted(s[0]) then [s[0]] + Collapse(s[1..], false)
    else if inRun then Collapse(s[1..], true)
    else "_" + Collapse(s[1..], true)
  }

  function StripStart(s: string): string {
    if s != "" && Separator(s[0]) then StripStart(s[1..]) else s
  }

  function StripEnd(s: string): string {
    if s != "" && Separator(s[|s| - 1]) then StripEnd(s[..|s| - 1]) else s
  }

  /** `value` is given in its compatibility normal form. */
  function SafeName(value: string, maxLength: nat): string {
    var stripped := StripEnd(StripStart(Collapse(value, false)));
    var name := if stripped == "" then "unnamed" else stripped;
    if |name| <= maxLength then name else name[..maxLength]
  }

  ghost predicate AllPermitted(s: string) {
    forall c :: c in s ==> Permitted(c)
  }

  lemma {:induction false} CollapsePermitted(s: string, inRun: bool)
    ensures AllPermitted(Collapse(s, inRun))
    decreases |s|
  {
    if s != "" {
      CollapsePermitted(s[1..], false);
      CollapsePermitted(s[1..], true);
    }
  }

  lemma {:induction false} CollapseKeepsPermitted(s: string, inRun: bool)
    requires AllPermitted(s)
    ensures Collapse(s, inRun) == s
    decreases |s|
  {
    if s != "" {
      assert s[0] in s && s == [s[0]] + s[1..];
      CollapseKeepsPermitted(s[1..], false);
    }
  }

  lemma {:induction false} StripStartFacts(s: string)
    requires AllPermitted(s)
    ensures var r := StripStart(s); |r| <= |s| && AllPermitted(r) && (r != "" ==> !Separator(r[0]))
    decreases |s|
  {
    if s != "" && Separator(s[0]) {
      StripStartFacts(s[1..]);
    }
  }

  lemma {:induction false} StripEndFacts(s: string)
    requires AllPermitted(s)
    ensures var r := StripEnd(s);
      && |r| <= |s| && AllPermitted(r)
      && (r != "" ==> !Separator(r[|r| - 1]) && r[0] == s[0])
    decreases |s|
  {
    if s != "" && Separator(s[|s| - 1]) {
      StripEndFacts(s[..|s| - 1]);
    }
  }

  /** A safe name is never empty, fits, uses only permitted characters and starts with a letter or
      a digit; a string that is already of that kind, and ends so too, is its own safe name. */
  lemma SafeNameIsSafe(value: string, maxLength: nat)
    requires maxLength >= 1
    ensures var r := SafeName(value, maxLength); 1 <= |r| <= maxLength && AllPermitted(r) && Alphanumeric(r[0])
    ensures (&& value != "" && |value| <= maxLength && AllPermitted(value)
             && Alphanumeric(value[0]) && Alphanumeric(value[|value| - 1])) ==> SafeName(value, maxLength) == value
  {
    hide Collapse; hide StripStart; hide StripEnd;
    SafeTextKeeps(value);
    var collapsed := Collapse(value, false);
    CollapsePermitted(value, false);
    StripStartFacts(collapsed);
    var started := StripStart(collapsed);
    StripEndFacts(started);
    var stripped := StripEnd(started);
    if stripped != "" {
      assert stripped[0] in stripped;
    }
  }

  /** Text that needs no change: permitted characters only, a letter or a digit at either end. */
  ghost predicate Core(s: string) {
    s != "" && AllPermitted(s) && Alphanumeric(s[0]) && Alphanumeric(s[|s| - 1])
  }

  /** No letters and no digits. */
  ghost predicate Padding(s: string) {
    forall c :: c in s ==> !Alphanumeric(c)
  }

  lemma {:induction false} CollapseAppend(s: string, t: string, inRun: bool)
    ensures Collapse(s + t, inRun) == Collapse(s, inRun) + Collapse(t, if s == "" then inRun else !Permitted(s[|s| - 1]))
    decreases |s|
  {
    if s == "" {
      assert s + t == t;
    } else {
      assert (s + t)[0] == s[0] && (s + t)[1..] == s[1..] + t;
      CollapseAppend(s[1..], t, !Permitted(s[0]));
      if |s| > 1 {
        assert s[1..][|s[1..]| - 1] == s[|s| - 1];
      }
    }
  }

  lemma {:induction false} CollapsePadding(s: string, inRun: bool)
    requires Padding(s)
    ensures forall c :: c in Collapse(s, inRun) ==> Separator(c)
    decreases |s|
  {
    if s != "" {
      assert s[0] in s;
      CollapsePadding(s[1..], false);
      CollapsePadding(s[1..], true);
    }
  }

  /** A run of characters that are not permitted becomes one underscore. */
  lemma {:induction false} CollapseRun(s: string, inRun: bool)
    requires s != "" && forall c :: c in s ==> !Permitted(c)
    ensures Collapse(s, inRun) == if inRun then "" else "_"
    decreases |s|
  {
    assert s[0] in s;
    if |s| > 1 {
      CollapseRun(s[1..], true);
    } else {
      assert s[1..] == "";
    }
  }

  lemma CollapseCore(s: string, inRun: bool)
    requires Core(s)
    ensures Collapse(s, inRun) == s
  {
    CollapseKeepsPermitted(s, inRun);
  }

  lemma {:induction false} StripStartOf(pad: string, core: string)
    requires (forall c :: c in pad ==> Separator(c)) && (core == "" || !Separator(core[0]))
    ensures StripStart(pad + core) == core
    decreases |pad|
  {
    if pad == "" {
      assert pad + core == core;
    } else {
      assert pad[0] in pad && (pad + core)[1..] == pad[1..] + core;
      StripStartOf(pad[1..], core);
    }
  }

  lemma {:induction false} StripEndOf(core: string, pad: string)
    requires (forall c :: c in pad ==> Separator(c)) && (core == "" || !Separator(core[|core| - 1]))
    ensures StripEnd(core + pad) == core
    decreases |pad|
  {
    if pad == "" {
      assert core + pad == core;
    } else {
      assert pad[|pad| - 1] in pad && (core + pad)[..|core + pad| - 1] == core + pad[..|pad| - 1];
      StripEndOf(core, pad[..|pad| - 1]);
    }
  }

  /** What is left of collapsed text once the separators around it are gone. */
  lemma Trimmed(value: string, pad: string, core: string, tail: string, maxLength: nat)
    requires Collapse(value, false) == pad + (core + tail)
    requires (forall c :: c in pad ==> Separator(c)) && (forall c :: c in tail ==> Separator(c))
    requires core != "" ==> !Separator(core[0]) && !Separator(core[|core| - 1])
    requires core == "" ==> tail == ""
    ensures core != "" && |core| <= maxLength ==> SafeName(value, maxLength) == core
    ensures core == "" && maxLength >= 7 ==> SafeName(value, maxLength) == "unnamed"
  {
    hide Collapse; hide StripStart; hide StripEnd; hide Separator;
    if core == "" {
      assert core + tail == "" && "" + "" == "";
      StripStartOf(pad, "");
      StripEndOf("", "");
    } else {
      assert (core + tail)[0] == core[0];
      StripStartOf(pad, core + tail);
      StripEndOf(core, tail);
    }
  }

  /** Whatever stands around the first and the last letter or digit is dropped, and text without any is
      called "unnamed". */
  lemma PaddingIsDropped(before: string, core: string, after: string, maxLength: nat)
    requires Padding(before) && Padding(after)
    ensures Core(core) && |core| <= maxLength ==> SafeName(before + core + after, maxLength) == core
    ensures maxLength >= 7 ==> SafeName(before, maxLength) == "unnamed"
  {
    hide Collapse; hide SafeName; hide AllPermitted; hide Padding;
    CollapsePadding(before, false);
    assert Collapse(before, false) == Collapse(before, false) + ("" + "");
    Trimmed(before, Collapse(before, false), "", "", maxLength);
    if Core(core) {
      CoreBetween(before, core, after);
      var tail := Collapse(after, !Permitted(core[|core| - 1]));
      CollapsePadding(after, !Permitted(core[|core| - 1]));
      Trimmed(before + core + after, Collapse(before, false), core, tail, maxLength);
    }
  }

  lemma CoreBetween(before: string, core: string, after: string)
    requires Core(core)
    ensures Collapse(before + core + after, false) ==
      Collapse(before, false) + (core + Collapse(after, !Permitted(core[|core| - 1])))
  {
    hide Collapse; hide AllPermitted; hide Permitted;
    CollapseAppend(before + core, after, false);
    CollapseAppend(before, core, false);
    CollapseCore(core, if before == "" then false else !Permitted(before[|before| - 1]));
    assert (before + core)[|before + core| - 1] == core[|core| - 1];
  }

  /** Each run of characters that are not permitted, between two pieces of safe text, is one underscore. */
  lemma RunsBecomeOne(left: string, run: string, right: string, maxLength: nat)
    requires Core(left) && Core(right) && run != "" && forall c :: c in run ==> !Permitted(c)
    requires |left| + 1 + |right| <= maxLength
    ensures SafeName(left + run + right, maxLength) == left + "_" + right
  {
    hide Collapse; hide SafeName; hide AllPermitted; hide Permitted;
    CollapseAppend(left + run, right, false);
    CollapseAppend(left, run, false);
    CollapseCore(left, false);
    LastOf(left);
    CollapseRun(run, false);
    assert (left + run)[|left + run| - 1] == run[|run| - 1] && run[|run| - 1] in run;
    CollapseCore(right, true);
    var s := left + "_" + right;
    assert s[0] == left[0] && s[|s| - 1] == right[|right| - 1];
    assert "" + (s + "") == s;
    Trimmed(left + run + right, "", s, "", maxLength);
  }

  lemma LastOf(s: string)
    requires Core(s)
    ensures Permitted(s[|s| - 1])
  {
  }

  lemma SafeTextKeeps(value: string)
    ensures AllPermitted(value) && value != "" && Alphanumeric(value[0]) && Alphanumeric(value[|value| - 1]) ==>
      Collapse(value, false) == value && StripStart(value) == value && StripEnd(value) == value
  {
    if AllPermitted(value) {
      CollapseKeepsPermitted(value, false);
    }
  }

  // ----- Exposed names -----

  predicate HexDigit(c: char) {
    '0' <= c <= '9' || 'a' <= c <= 'f'
  }

  /** The first sixteen hexadecimal digits of a SHA-256 digest. */
  ghost predicate IsFingerprint(f: string) {
    |f| == FINGERPRINT_LENGTH && forall i :: 0 <= i < |f| ==> HexDigit(f[i])
  }

  function Joined(prefix: string, app: string, origin: string, local: string): string {
    prefix + "_" + app + "_" + origin + "__" + local
  }

  function CapabilityName(fingerprint: string -> string, appId: string, origin: string, name: string): string {
    Joined(SafeName(appId, APP_PREFIX_LENGTH), fingerprint(appId), fingerprint(origin), SafeName(name, LOCAL_NAME_LENGTH))
  }

  /** Where each part of a joined name sits. */
  lemma Layout(p: string, f: string, g: string, n: string)
    requires |f| == |g| == 16
    ensures var s := Joined(p, f, g, n); var o := |p|;
      && |s| == o + 36 + |n|
      && s[..o] == p && s[o] == '_' && s[o + 1..o + 17] == f && s[o + 17] == '_' && s[o + 18..o + 34] == g
      && s[o + 34] == '_' && s[o + 35] == '_' && s[o + 36..] == n
  {
    var s, o := Joined(p, f, g, n), |p|;
    var tail := ['_'] + f + ['_'] + g + ['_', '_'] + n;
    assert s == p + tail;
    Tail(f, g, n);
    assert forall i :: 0 <= i < |tail| ==> s[o + i] == tail[i];
    assert s[o + 1..o + 17] == tail[1..17];
    assert s[o + 18..o + 34] == tail[18..34];
    assert s[o + 36..] == tail[36..];
  }

  lemma Tail(f: string, g: string, n: string)
    requires |f| == |g| == 16
    ensures var t := ['_'] + f + ['_'] + g + ['_', '_'] + n;
      && |t| == 36 + |n| && t[0] == t[17] == t[34] == t[35] == '_'
      && t[1..17] == f && t[18..34] == g && t[36..] == n
  {
  }

  /** In the 36 characters after the prefix, the underscores are at four known places. */
  lemma Underscores(p: string, f: string, g: string, n: string)
    requires IsFingerprint(f) && IsFingerprint(g)
    ensures var s := Joined(p, f, g, n);
      |s| >= |p| + 36 && forall j :: |p| <= j < |p| + 36 ==> (s[j] == '_' <==> j - |p| in {0, 17, 34, 35})
  {
    hide Joined;
    Layout(p, f, g, n);
    var s, o := Joined(p, f, g, n), |p|;
    forall j | o <= j < o + 36 ensures s[j] == '_' <==> j - o in {0, 17, 34, 35} {
      assert o + 1 <= j < o + 17 ==> s[j] == s[o + 1..o + 17][j - o - 1] == f[j - o - 1];
      assert o + 18 <= j < o + 34 ==> s[j] == s[o + 18..o + 34][j - o - 18] == g[j - o - 18];
    }
  }

  lemma NotShifted(p: string, f: string, g: string, n: string, q: string, h: string, k: string, m: string)
    requires IsFingerprint(f) && IsFingerprint(g) && IsFingerprint(h) && IsFingerprint(k)
    requires Joined(p, f, g, n) == Joined(q, h, k, m)
    requires |p| <= |q| < |p| + 35
    ensures |p| == |q|
  {
    hide Joined;
    Underscores(p, f, g, n);
    Underscores(q, h, k, m);
    var s := Joined(p, f, g, n);
    assert s[|q|] == '_' && s[|p| + 35] == '_';
  }

  /** A joined name can be taken apart in one way only, as long as the two prefixes differ in
      length by less than 35: underscores inside the prefixes and local names do no harm. */
  lemma JoinedDetermines(p: string, f: string, g: string, n: string, q: string, h: string, k: string, m: string)
    requires IsFingerprint(f) && IsFingerprint(g) && IsFingerprint(h) && IsFingerprint(k)
    requires -35 < |p| - |q| < 35
    ensures Joined(p, f, g, n) == Joined(q, h, k, m) <==> p == q && f == h && g == k && n == m
  {
    hide Joined;
    if Joined(p, f, g, n) == Joined(q, h, k, m) {
      if |p| <= |q| {
        NotShifted(p, f, g, n, q, h, k, m);
      } else {
        NotShifted(q, h, k, m, p, f, g, n);
      }
      Layout(p, f, g, n);
      Layout(q, h, k, m);
    }
  }

  /** At a difference of 35 the shifted reading is possible, whatever the other parts are: the cap
      on the prefix is what rules it out. */
  lemma LongPrefixesCollide(p: string, f: string, g: string, h: string, k: string, m: string)
    requires IsFingerprint(f) && IsFingerprint(g) && IsFingerprint(h) && IsFingerprint(k)
    ensures var q := p + "_" + f + "_" + g + "_";
      |q| == |p| + 35 && Joined(p, f, g, h + "_" + k + "__" + m) == Joined(q, h, k, m)
  {
    assert "__" == "_" + "_";
    var q := p + "_" + f + "_" + g + "_";
    assert Joined(q, h, k, m) == q + "_" + (h + "_" + k + "__" + m);
  }

  /** Two exposed names are equal exactly if the applications' prefixes and fingerprints, the
      origins' fingerprints and the normalised local names are; and every name is short enough. */
  lemma NamesEqualExactlyWhen(fp: string -> string, app: string, origin: string, name: string,
                              app': string, origin': string, name': string)
    requires forall x :: IsFingerprint(fp(x))
    ensures CapabilityName(fp, app, origin, name) == CapabilityName(fp, app', origin', name') <==>
      && SafeName(app, APP_PREFIX_LENGTH) == SafeName(app', APP_PREFIX_LENGTH)
      && fp(app) == fp(app') && fp(origin) == fp(origin')
      && SafeName(name, LOCAL_NAME_LENGTH) == SafeName(name', LOCAL_NAME_LENGTH)
    ensures |CapabilityName(fp, app, origin, name)| <= 128
    ensures AllPermitted(CapabilityName(fp, app, origin, name))
  {
    hide SafeName; hide Joined;
    SafeNameIsSafe(app, APP_PREFIX_LENGTH);
    SafeNameIsSafe(app', APP_PREFIX_LENGTH);
    SafeNameIsSafe(name, LOCAL_NAME_LENGTH);
    var p, f, g, n := SafeName(app, APP_PREFIX_LENGTH), fp(app), fp(origin), SafeName(name, LOCAL_NAME_LENGTH);
    var q, h, k, m := SafeName(app', APP_PREFIX_LENGTH), fp(app'), fp(origin'), SafeName(name', LOCAL_NAME_LENGTH);
    JoinedDetermines(p, f, g, n, q, h, k, m);
    Layout(p, f, g, n);
    JoinedPermitted(p, f, g, n);
  }

  lemma JoinedPermitted(p: string, f: string, g: string, n: string)
    requires IsFingerprint(f) && IsFingerprint(g) && AllPermitted(p) && AllPermitted(n)
    ensures AllPermitted(Joined(p, f, g, n))
  {
  }

  // ----- Resource addresses -----

  function ResourceUri(fingerprint: string -> string, appId: string, origin: string, uri: seq<Byte>): string {
    "browsermcp://app-" + fingerprint(appId) + "-" + fingerprint(origin) + "/" + Base64.EncodeUrl(uri)
  }

  /** Two exposed addresses are equal exactly if both fingerprints and the original addresses are. */
  lemma UrisEqualExactlyWhen(fp: string -> string, app: string, origin: string, uri: seq<Byte>,
                             app': string, origin': string, uri': seq<Byte>)
    requires forall x :: IsFingerprint(fp(x))
    ensures ResourceUri(fp, app, origin, uri) == ResourceUri(fp, app', origin', uri') <==>
      fp(app) == fp(app') && fp(origin) == fp(origin') && uri == uri'
  {
    hide Base64.EncodeUrl;
    var s, t := ResourceUri(fp, app, origin, uri), ResourceUri(fp, app', origin', uri');
    UriLayout(fp, app, origin, uri);
    UriLayout(fp, app', origin', uri');
    if s == t {
      Base64.EncodeUrlInjective(uri, uri');
    }
  }

  lemma UriLayout(fp: string -> string, app: string, origin: string, uri: seq<Byte>)
    requires forall x :: IsFingerprint(fp(x))
    ensures var s := ResourceUri(fp, app, origin, uri);
      |s| >= 51 && s[17..33] == fp(app) && s[34..50] == fp(origin) && s[51..] == Base64.EncodeUrl(uri)
  {
    hide Base64.EncodeUrl;
    var head := "browsermcp://app-";
    assert |head| == 17 && IsFingerprint(fp(app)) && IsFingerprint(fp(origin));
    var s := ResourceUri(fp, app, origin, uri);
    assert s == head + (fp(app) + ("-" + (fp(origin) + ("/" + Base64.EncodeUrl(uri)))));
    assert s[17..] == fp(app) + ("-" + (fp(origin) + ("/" + Base64.EncodeUrl(uri))));
    assert s[33..] == "-" + (fp(origin) + ("/" + Base64.EncodeUrl(uri)));
    assert s[34..] == fp(origin) + ("/" + Base64.EncodeUrl(uri));
    assert s[50..] == "/" + Base64.EncodeUrl(uri);
  }
}
