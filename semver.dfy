/** Semantic Versioning 2.0.0 as the Go module `golang.org/x/mod/semver`
    applies it: a version is `vMAJOR[.MINOR[.PATCH[-PRERELEASE][+BUILD]]]`,
    the shorthands `vMAJOR` and `vMAJOR.MINOR` stand for `vMAJOR.0.0` and
    `vMAJOR.MINOR.0`, numeric parts carry no leading zero, and build metadata
    is checked but ignored by the ordering. The ordering is the precedence of
    section 11 of the Semantic Versioning 2.0.0 specification. */
module Semver {
  import opened Wrappers
  import opened Text

  /** One dot-separated pre-release identifier. */
  datatype Ident = Numeric(n: nat) | Alphanumeric(s: string)

  /** A parsed version; build metadata plays no part in precedence and is dropped. */
  datatype Version = Version(major: nat, minor: nat, patch: nat, prerelease: seq<Ident>)

  /** What a scan of a leading number yields: its value and the unread rest. */
  datatype Scan = Scan(value: nat, rest: string)

  predicate IsIdentChar(c: char) {
    IsDigit(c) || 'A' <= c <= 'Z' || 'a' <= c <= 'z' || c == '-'
  }

  predicate AllIdentChars(s: string) {
    forall i :: 0 <= i < |s| ==> IsIdentChar(s[i])
  }

  // ---------------------------------------------------------------------------
  // Scanning

  /** The length of the run of digits at the start of `s`. */
  function DigitRun(s: string): (k: nat)
    ensures k <= |s|
    ensures AllDigits(s[..k])
    ensures k < |s| ==> !IsDigit(s[k])
    decreases |s|
  {
    if s == [] || !IsDigit(s[0]) then 0
    else
      var k := 1 + DigitRun(s[1..]);
      assert s[..k] == [s[0]] + s[1..][..k - 1];
      k
  }

  /** The index of the first `c` in `s`, or `|s|` when there is none. */
  function IndexOf(s: string, c: char): (k: nat)
    ensures k <= |s|
    ensures k < |s| ==> s[k] == c
    ensures forall i :: 0 <= i < k ==> s[i] != c
    decreases |s|
  {
    if s == [] then 0 else if s[0] == c then 0 else 1 + IndexOf(s[1..], c)
  }

  /** A leading decimal number: at least one digit, and no leading zero
      unless the number is the single digit 0. */
  function ParseNumber(s: string): Option<Scan> {
    if s == [] || !IsDigit(s[0]) then None
    else
      var k := DigitRun(s);
      if s[0] == '0' && k != 1 then None
      else Some(Scan(DecimalValue(s[..k]), s[k..]))
  }

  /** A numeric identifier with a leading zero, which item 9 of Semantic Versioning 2.0.0 forbids. */
  predicate IsBadNumber(f: string) {
    AllDigits(f) && |f| > 1 && f[0] == '0'
  }

  /** One pre-release identifier: non-empty, `[0-9A-Za-z-]` only, and
      numeric identifiers without a leading zero. */
  function ParseIdent(f: string): Option<Ident> {
    if f == [] || !AllIdentChars(f) || IsBadNumber(f) then None
    else if AllDigits(f) then Some(Numeric(DecimalValue(f)))
    else Some(Alphanumeric(f))
  }

  /** A dot-separated, non-empty list of pre-release identifiers. */
  function ParseIdents(s: string): Option<seq<Ident>>
    decreases |s|
  {
    var k := IndexOf(s, '.');
    match ParseIdent(s[..k])
    case None => None
    case Some(id) =>
      if k == |s| then Some([id])
      else
        match ParseIdents(s[k + 1..])
        case None => None
        case Some(ids) => Some([id] + ids)
  }

  /** Build metadata: non-empty dot-separated identifiers of `[0-9A-Za-z-]`. */
  predicate ValidBuild(s: string)
    decreases |s|
  {
    var k := IndexOf(s, '.');
    k > 0 && AllIdentChars(s[..k]) && (k == |s| || ValidBuild(s[k + 1..]))
  }

  /** What may follow the patch number: nothing, `-PRERELEASE[+BUILD]` or `+BUILD`. */
  function ParseTail(r: string): Option<seq<Ident>> {
    if r == [] then Some([])
    else if r[0] == '-' then
      var body := r[1..];
      var j := IndexOf(body, '+');
      match ParseIdents(body[..j])
      case None => None
      case Some(ids) => if j == |body| || ValidBuild(body[j + 1..]) then Some(ids) else None
    else if r[0] == '+' then
      if ValidBuild(r[1..]) then Some([]) else None
    else None
  }

  /** The library's parser: `None` for every string it does not accept. */
  function Parse(v: string): (r: Option<Version>)
    ensures r.Some? ==> |v| >= 2 && v[0] == 'v' && IsDigit(v[1])
  {
    if v == [] || v[0] != 'v' then None else ParseMajor(v[1..])
  }

  /** After the `v`: the major number, then nothing (shorthand `vMAJOR`) or a dot. */
  function ParseMajor(s: string): Option<Version> {
    match ParseNumber(s)
    case None => None
    case Some(major) =>
      if major.rest == [] then Some(Version(major.value, 0, 0, []))
      else if major.rest[0] != '.' then None
      else ParseMinor(major.value, major.rest[1..])
  }

  /** The minor number, then nothing (shorthand `vMAJOR.MINOR`) or a dot. */
  function ParseMinor(major: nat, s: string): Option<Version> {
    match ParseNumber(s)
    case None => None
    case Some(minor) =>
      if minor.rest == [] then Some(Version(major, minor.value, 0, []))
      else if minor.rest[0] != '.' then None
      else ParsePatch(major, minor.value, minor.rest[1..])
  }

  /** The patch number, then the pre-release and build suffixes. */
  function ParsePatch(major: nat, minor: nat, s: string): Option<Version> {
    match ParseNumber(s)
    case None => None
    case Some(patch) =>
      match ParseTail(patch.rest)
      case None => None
      case Some(pre) => Some(Version(major, minor, patch.value, pre))
  }

  /** `semver.IsValid`. */
  predicate IsValid(v: string)
    ensures IsValid(v) ==> |v| >= 2 && v[0] == 'v' && IsDigit(v[1])
  {
    Parse(v).Some?
  }

  // ---------------------------------------------------------------------------
  // Printing, the inverse of parsing

  /** An identifier the parser can produce: an alphanumeric one is a
      non-empty run of identifier characters that is not all digits. */
  predicate WellFormedIdent(id: Ident) {
    id.Alphanumeric? ==> |id.s| > 0 && AllIdentChars(id.s) && !AllDigits(id.s)
  }

  predicate WellFormed(v: Version) {
    forall i :: 0 <= i < |v.prerelease| ==> WellFormedIdent(v.prerelease[i])
  }

  function FormatIdent(id: Ident): string {
    match id
    case Numeric(n) => NatToDecimal(n)
    case Alphanumeric(s) => s
  }

  function FormatIdents(ids: seq<Ident>): string
    requires |ids| > 0
    decreases |ids|
  {
    if |ids| == 1 then FormatIdent(ids[0]) else FormatIdent(ids[0]) + "." + FormatIdents(ids[1..])
  }

  /** The suffix that `Format` prints after the patch number. */
  function FormatTail(pre: seq<Ident>): string {
    if pre == [] then "" else "-" + FormatIdents(pre)
  }

  /** The canonical spelling `vMAJOR.MINOR.PATCH[-PRERELEASE]`. */
  function Format(v: Version): string {
    "v" + (NatToDecimal(v.major) + FormatFromMinor(v))
  }

  /** `.MINOR.PATCH[-PRERELEASE]` */
  function FormatFromMinor(v: Version): string {
    "." + (NatToDecimal(v.minor) + FormatFromPatch(v))
  }

  /** `.PATCH[-PRERELEASE]` */
  function FormatFromPatch(v: Version): string {
    "." + (NatToDecimal(v.patch) + FormatTail(v.prerelease))
  }

  /** The spelling of a release version, written out in one piece. */
  lemma FormatRelease(major: nat, minor: nat, patch: nat)
    ensures Format(Version(major, minor, patch, [])) ==
      "v" + NatToDecimal(major) + "." + NatToDecimal(minor) + "." + NatToDecimal(patch)
  {
  }

  // ---------------------------------------------------------------------------
  // Precedence (section 11 of Semantic Versioning 2.0.0)

  function CompareNat(a: nat, b: nat): int {
    if a < b then -1 else if b < a then 1 else 0
  }

  /** Section 11.4.1-11.4.3: numeric identifiers compare numerically,
      alphanumeric ones in ASCII order, and numeric ones rank lower. */
  function CompareIdent(x: Ident, y: Ident): (c: int)
    ensures -1 <= c <= 1
    ensures c == 0 <==> x == y
  {
    match (x, y)
    case (Numeric(a), Numeric(b)) => CompareNat(a, b)
    case (Numeric(_), Alphanumeric(_)) => -1
    case (Alphanumeric(_), Numeric(_)) => 1
    case (Alphanumeric(a), Alphanumeric(b)) => LexCompare(a, b)
  }

  /** Section 11.4.4: identifier by identifier; a proper prefix ranks lower. */
  function CompareIdentLists(x: seq<Ident>, y: seq<Ident>): (c: int)
    ensures -1 <= c <= 1
    ensures c == 0 <==> x == y
    decreases |x|
  {
    if x == [] && y == [] then 0
    else if x == [] then -1
    else if y == [] then 1
    else
      var c := CompareIdent(x[0], y[0]);
      if c != 0 then c
      else
        var d := CompareIdentLists(x[1..], y[1..]);
        assert d == 0 ==> x == [x[0]] + x[1..] == [y[0]] + y[1..] == y;
        d
  }

  /** Section 11.3: a version without pre-release ranks above one with it. */
  function ComparePrerelease(x: seq<Ident>, y: seq<Ident>): (c: int)
    ensures -1 <= c <= 1
    ensures c == 0 <==> x == y
  {
    if x == y then 0
    else if x == [] then 1
    else if y == [] then -1
    else CompareIdentLists(x, y)
  }

  /** `semver.Compare` on two valid versions: -1, 0 or 1, and 0 exactly
      when the versions agree on everything but build metadata. */
  function Compare(a: Version, b: Version): (c: int)
    ensures -1 <= c <= 1
    ensures c == 0 <==> a == b
  {
    var c := CompareNat(a.major, b.major);
    if c != 0 then c
    else
      var c := CompareNat(a.minor, b.minor);
      if c != 0 then c
      else
        var c := CompareNat(a.patch, b.patch);
        if c != 0 then c else ComparePrerelease(a.prerelease, b.prerelease)
  }

  // ---------------------------------------------------------------------------
  // Precedence is a total order

  lemma CompareIdentAntisymmetric(x: Ident, y: Ident)
    ensures CompareIdent(x, y) == -CompareIdent(y, x)
  {
    if x.Alphanumeric? && y.Alphanumeric? {
      LexCompareAntisymmetric(x.s, y.s);
    }
  }

  lemma {:induction false} CompareIdentListsAntisymmetric(x: seq<Ident>, y: seq<Ident>)
    ensures CompareIdentLists(x, y) == -CompareIdentLists(y, x)
    decreases |x|
  {
    if x != [] && y != [] {
      CompareIdentAntisymmetric(x[0], y[0]);
      CompareIdentListsAntisymmetric(x[1..], y[1..]);
    }
  }

  /** Swapping the operands negates the result. */
  lemma CompareAntisymmetric(a: Version, b: Version)
    ensures Compare(a, b) == -Compare(b, a)
  {
    CompareIdentListsAntisymmetric(a.prerelease, b.prerelease);
  }

  lemma CompareIdentTransitive(x: Ident, y: Ident, z: Ident)
    requires CompareIdent(x, y) <= 0 && CompareIdent(y, z) <= 0
    ensures CompareIdent(x, z) <= 0
  {
    if x.Alphanumeric? && y.Alphanumeric? && z.Alphanumeric? {
      LexCompareTransitive(x.s, y.s, z.s);
    }
  }

  lemma {:induction false} CompareIdentListsTransitive(x: seq<Ident>, y: seq<Ident>, z: seq<Ident>)
    requires CompareIdentLists(x, y) <= 0 && CompareIdentLists(y, z) <= 0
    ensures CompareIdentLists(x, z) <= 0
    decreases |x|
  {
    if x != [] && y != [] && z != [] {
      CompareIdentTransitive(x[0], y[0], z[0]);
      CompareIdentAntisymmetric(x[0], y[0]);
      if x[0] == y[0] == z[0] {
        CompareIdentListsTransitive(x[1..], y[1..], z[1..]);
      }
    }
  }

  lemma ComparePrereleaseTransitive(x: seq<Ident>, y: seq<Ident>, z: seq<Ident>)
    requires ComparePrerelease(x, y) <= 0 && ComparePrerelease(y, z) <= 0
    ensures ComparePrerelease(x, z) <= 0
  {
    if x != [] && y != [] && z != [] {
      CompareIdentListsTransitive(x, y, z);
    }
  }

  /** "Not above" is transitive, so precedence orders all valid versions. */
  lemma CompareTransitive(a: Version, b: Version, c: Version)
    requires Compare(a, b) <= 0 && Compare(b, c) <= 0
    ensures Compare(a, c) <= 0
  {
    if (a.major, a.minor, a.patch) == (b.major, b.minor, b.patch) == (c.major, c.minor, c.patch) {
      ComparePrereleaseTransitive(a.prerelease, b.prerelease, c.prerelease);
    }
  }

  /** Section 11.3: with equal major, minor and patch, a pre-release version
      has lower precedence than the release. */
  lemma PrereleaseBelowRelease(v: Version)
    requires v.prerelease != []
    ensures Compare(v, v.(prerelease := [])) == -1
  {
  }

  // ---------------------------------------------------------------------------
  // Parsing and printing are inverse

  lemma {:induction false} DigitRunOfDigits(d: string, rest: string)
    requires AllDigits(d)
    requires rest == [] || !IsDigit(rest[0])
    ensures DigitRun(d + rest) == |d|
    decreases |d|
  {
    if d == [] {
      assert d + rest == rest;
    } else {
      assert (d + rest)[1..] == d[1..] + rest;
      DigitRunOfDigits(d[1..], rest);
    }
  }

  /** A printed number, followed by a non-digit or nothing, scans back to itself. */
  lemma ParseNumberOfDecimal(n: nat, rest: string)
    requires rest == [] || !IsDigit(rest[0])
    ensures ParseNumber(NatToDecimal(n) + rest) == Some(Scan(n, rest))
  {
    var d := NatToDecimal(n);
    var s := d + rest;
    DigitRunOfDigits(d, rest);
    assert s[..|d|] == d;
    assert s[|d|..] == rest;
    DecimalRoundTrip(n);
  }

  lemma FormatIdentChars(id: Ident)
    requires WellFormedIdent(id)
    ensures |FormatIdent(id)| > 0 && AllIdentChars(FormatIdent(id))
  {
  }

  lemma IndexOfSeparator(f: string, c: char, rest: string)
    requires forall i :: 0 <= i < |f| ==> f[i] != c
    ensures IndexOf(f + [c] + rest, c) == |f|
    ensures IndexOf(f, c) == |f|
  {
    var s := f + [c] + rest;
    assert forall i :: 0 <= i < |f| ==> s[i] == f[i];
    assert s[|f|] == c;
  }

  lemma ParseIdentOfFormat(id: Ident)
    requires WellFormedIdent(id)
    ensures ParseIdent(FormatIdent(id)) == Some(id)
  {
    if id.Numeric? {
      DecimalRoundTrip(id.n);
    }
  }

  /** The printed identifiers use identifier characters and dots only. */
  lemma {:induction false} FormatIdentsChars(ids: seq<Ident>)
    requires |ids| > 0
    requires forall i :: 0 <= i < |ids| ==> WellFormedIdent(ids[i])
    ensures forall i :: 0 <= i < |FormatIdents(ids)| ==> IsIdentChar(FormatIdents(ids)[i]) || FormatIdents(ids)[i] == '.'
    decreases |ids|
  {
    FormatIdentChars(ids[0]);
    if |ids| > 1 {
      FormatIdentsChars(ids[1..]);
    }
  }

  lemma {:induction false} ParseIdentsOfFormat(ids: seq<Ident>)
    requires |ids| > 0
    requires forall i :: 0 <= i < |ids| ==> WellFormedIdent(ids[i])
    ensures ParseIdents(FormatIdents(ids)) == Some(ids)
    decreases |ids|
  {
    var f := FormatIdent(ids[0]);
    FormatIdentChars(ids[0]);
    ParseIdentOfFormat(ids[0]);
    if |ids| == 1 {
      IndexOfSeparator(f, '.', "");
      assert FormatIdents(ids) == f && f[..|f|] == f;
      assert [ids[0]] == ids;
    } else {
      var t := FormatIdents(ids[1..]);
      var s := f + "." + t;
      assert s == f + ['.'] + t;
      IndexOfSeparator(f, '.', t);
      assert s[..|f|] == f;
      assert s[|f| + 1..] == t;
      ParseIdentsOfFormat(ids[1..]);
      assert [ids[0]] + ids[1..] == ids;
    }
  }

  lemma ParseTailOfFormat(pre: seq<Ident>)
    requires forall i :: 0 <= i < |pre| ==> WellFormedIdent(pre[i])
    ensures ParseTail(FormatTail(pre)) == Some(pre)
  {
    if pre != [] {
      var body := FormatIdents(pre);
      var r := "-" + body;
      assert r[1..] == body;
      FormatIdentsChars(pre);
      IndexOfSeparator(body, '+', "");
      assert body[..|body|] == body;
      ParseIdentsOfFormat(pre);
    }
  }

  lemma ParseMinorStep(major: nat, s: string, minor: nat, rest: string)
    requires ParseNumber(s) == Some(Scan(minor, rest))
    requires rest != [] && rest[0] == '.'
    ensures ParseMinor(major, s) == ParsePatch(major, minor, rest[1..])
  {
  }

  lemma ParseMajorStep(s: string, major: nat, rest: string)
    requires ParseNumber(s) == Some(Scan(major, rest))
    requires rest != [] && rest[0] == '.'
    ensures ParseMajor(s) == ParseMinor(major, rest[1..])
  {
  }

  lemma ParsePatchOfFormat(v: Version)
    requires WellFormed(v)
    ensures ParsePatch(v.major, v.minor, FormatFromPatch(v)[1..]) == Some(v)
  {
    assert FormatFromPatch(v)[1..] == NatToDecimal(v.patch) + FormatTail(v.prerelease);
    ParseTailOfFormat(v.prerelease);
    ParseNumberOfDecimal(v.patch, FormatTail(v.prerelease));
  }

  lemma ParseMinorOfFormat(v: Version)
    requires WellFormed(v)
    ensures ParseMinor(v.major, FormatFromMinor(v)[1..]) == Some(v)
  {
    var r := FormatFromPatch(v);
    assert FormatFromMinor(v)[1..] == NatToDecimal(v.minor) + r;
    ParseNumberOfDecimal(v.minor, r);
    ParseMinorStep(v.major, NatToDecimal(v.minor) + r, v.minor, r);
    ParsePatchOfFormat(v);
  }

  /** Round trip: the parser reads every well-formed version back from its
      canonical spelling. */
  lemma ParseFormat(v: Version)
    requires WellFormed(v)
    ensures Parse(Format(v)) == Some(v)
  {
    var r := FormatFromMinor(v);
    assert Format(v)[1..] == NatToDecimal(v.major) + r;
    ParseNumberOfDecimal(v.major, r);
    ParseMajorStep(NatToDecimal(v.major) + r, v.major, r);
    ParseMinorOfFormat(v);
  }

  lemma ParseIdentWellFormed(f: string)
    ensures ParseIdent(f).Some? ==> WellFormedIdent(ParseIdent(f).value)
  {
  }

  lemma {:induction false} ParseIdentsWellFormed(s: string)
    ensures ParseIdents(s).Some? ==>
      forall i :: 0 <= i < |ParseIdents(s).value| ==> WellFormedIdent(ParseIdents(s).value[i])
    decreases |s|
  {
    var k := IndexOf(s, '.');
    ParseIdentWellFormed(s[..k]);
    if k < |s| {
      ParseIdentsWellFormed(s[k + 1..]);
    }
  }

  /** Conversely, every version the parser accepts is well-formed, so the
      round trip covers everything `Parse` can return. */
  lemma ParseWellFormed(s: string)
    ensures Parse(s).Some? ==> WellFormed(Parse(s).value)
  {
    if Parse(s).Some? && |Parse(s).value.prerelease| > 0 {
      var major := ParseNumber(s[1..]).value;
      var minor := ParseNumber(major.rest[1..]).value;
      var patch := ParseNumber(minor.rest[1..]).value;
      var r := patch.rest;
      assert ParseTail(r) == Some(Parse(s).value.prerelease);
      assert r != [] && r[0] == '-';
      var body := r[1..];
      ParseIdentsWellFormed(body[..IndexOf(body, '+')]);
    }
  }
}
