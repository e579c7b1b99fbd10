/**
 * BlobStorageService: names the audit blob of an onboarding run and
 * uploads a JSON payload under that name. The blob name is
 * "onboarding/yyyy/MM/dd/student-<id>-<slug>-<millis>.json", where the slug
 * is the candidate's name reduced to lower-case letters and digits
 * separated by single dashes.
 */
module BlobStorage {
  import opened Wrappers
  import opened Text

  // ---------------------------------------------------------------------------
  // Slugs

  predicate IsAlnum(c: char) { IsLowerLetter(c) || IsDigit(c) }

  /** Only [a-z0-9-], and no two dashes in a row. */
  predicate DashText(s: string) {
    (forall i :: 0 <= i < |s| ==> IsAlnum(s[i]) || s[i] == '-')
    && (forall i :: 0 <= i < |s| - 1 ==> !(s[i] == '-' && s[i + 1] == '-'))
  }

  /** A slug: not empty, only [a-z0-9-], no dash at either end, no two dashes in a row. */
  predicate IsSlug(s: string) {
    s != [] && s[0] != '-' && s[|s| - 1] != '-' && DashText(s)
  }

  /** `replaceAll("[^a-z0-9]+", "-")`: every maximal run of other characters becomes one dash. */
  function DashRuns(s: string): (r: string)
    ensures |r| <= |s|
    ensures r != [] ==> (r[0] == '-' <==> !IsAlnum(s[0]))
    ensures DashText(r)
  {
    if s == [] then []
    else if IsAlnum(s[0]) then [s[0]] + DashRuns(s[1..])
    else if |s| > 1 && !IsAlnum(s[1]) then DashRuns(s[1..])
    else "-" + DashRuns(s[1..])
  }

  predicate IsDash(c: char) { c == '-' }

  /** `replaceAll("(^-+|-+$)", "")`: the dashes at both ends removed. */
  function StripDashes(s: string): string {
    Trim(s, IsDash)
  }

  const Unknown := "unknown"

  /** slugify: "unknown" for null, blank, or a name without ASCII letters or digits. */
  function Slugify(value: Option<string>): (r: string)
    ensures value.None? || IsBlank(value.value) ==> r == Unknown
  {
    if value.None? || IsBlank(value.value) then Unknown
    else
      var trimmed := Lower(JavaTrim(value.value));
      var slug := StripDashes(DashRuns(trimmed));
      if IsBlank(slug) then Unknown else slug
  }

  lemma UnknownIsSlug()
    ensures IsSlug(Unknown)
  {
  }

  lemma SliceOfDashText(s: string, d: nat, n: nat)
    requires DashText(s) && d + n <= |s|
    ensures DashText(s[d..d + n])
  {
    var t := s[d..d + n];
    assert forall i :: 0 <= i < n ==> t[i] == s[d + i];
  }

  /** Removing the end dashes of a dash-run string gives a slug, which is not blank, or nothing. */
  lemma {:induction false} StripDashesGivesSlug(s: string)
    requires DashText(s)
    ensures var t := StripDashes(s); t == [] || (IsSlug(t) && !IsBlank(t))
  {
    var t := StripDashes(s);
    TrimSlice(s, IsDash);
    var d := |s| - |TrimStart(s, IsDash)|;
    assert t == s[d..d + |t|];
    SliceOfDashText(s, d, |t|);
    TrimEnds(s, IsDash);
    if t != [] {
      DashEndsGiveSlug(t);
    }
  }

  /** Dash text that neither starts nor ends with a dash is a slug that is not blank. */
  lemma DashEndsGiveSlug(t: string)
    requires DashText(t) && t != [] && t[0] != '-' && t[|t| - 1] != '-'
    ensures IsSlug(t) && !IsBlank(t)
  {
    assert IsAlnum(t[0]);
    assert !IsJavaWhitespace(t[0]);
  }

  /** Every slug is a slug: never empty, only [a-z0-9-], no end dashes, no double dashes. */
  lemma SlugifyGivesSlug(value: Option<string>)
    ensures IsSlug(Slugify(value))
  {
    UnknownIsSlug();
    if value.Some? && !IsBlank(value.value) {
      StripDashesGivesSlug(DashRuns(Lower(JavaTrim(value.value))));
    }
  }

  /** A string of letters, digits and single dashes has no run to replace. */
  lemma {:induction false} DashRunsKeepsSlugText(s: string)
    requires DashText(s)
    ensures DashRuns(s) == s
  {
    if s != [] {
      DashRunsKeepsSlugText(s[1..]);
      assert [s[0]] + s[1..] == s;
    }
  }

  /** A slug is its own slug. */
  lemma SlugIsFixed(s: string)
    requires IsSlug(s)
    ensures Slugify(Some(s)) == s
  {
    assert !IsJavaWhitespace(s[0]);
    TrimKeeps(s, IsJavaTrimmable);
    assert Lower(s) == s;
    DashRunsKeepsSlugText(s);
    TrimKeeps(s, IsDash);
  }

  /** slugify is idempotent. */
  lemma SlugifyIdempotent(value: Option<string>)
    ensures Slugify(Some(Slugify(value))) == Slugify(value)
  {
    SlugifyGivesSlug(value);
    SlugIsFixed(Slugify(value));
  }

  // ---------------------------------------------------------------------------
  // The letters and digits of a slug

  /** The ASCII letters and digits of `s`, in order. */
  function Alnums(s: string): string {
    if s == [] then []
    else if IsAlnum(s[0]) then [s[0]] + Alnums(s[1..])
    else Alnums(s[1..])
  }

  lemma {:induction false} AlnumsAppend(a: string, b: string)
    ensures Alnums(a + b) == Alnums(a) + Alnums(b)
  {
    if a == [] {
      assert a + b == b;
    } else {
      assert (a + b)[0] == a[0] && (a + b)[1..] == a[1..] + b;
      AlnumsAppend(a[1..], b);
      if IsAlnum(a[0]) {
        assert Alnums(a + b) == [a[0]] + (Alnums(a[1..]) + Alnums(b));
        assert [a[0]] + (Alnums(a[1..]) + Alnums(b)) == ([a[0]] + Alnums(a[1..])) + Alnums(b);
      } else {
        assert Alnums(a + b) == Alnums(a[1..]) + Alnums(b);
      }
    }
  }

  lemma {:induction false} AlnumsNone(s: string)
    requires forall i :: 0 <= i < |s| ==> !IsAlnum(s[i])
    ensures Alnums(s) == []
  {
    if s != [] {
      AlnumsNone(s[1..]);
    }
  }

  /** Cutting away characters that are not letters or digits keeps the letters and digits. */
  lemma {:induction false} AlnumsOfSlice(s: string, d: nat, n: nat)
    requires d + n <= |s|
    requires forall i :: 0 <= i < d ==> !IsAlnum(s[i])
    requires forall i :: d + n <= i < |s| ==> !IsAlnum(s[i])
    ensures Alnums(s[d..d + n]) == Alnums(s)
  {
    var front, middle, back := s[..d], s[d..d + n], s[d + n..];
    var head := s[..d + n];
    assert head[..d] == front && head[d..] == middle;
    assert front + middle == head;
    assert head + back == s;
    AlnumsAppend(front + middle, back);
    AlnumsAppend(front, middle);
    forall i | 0 <= i < |front|
      ensures !IsAlnum(front[i])
    {
      assert front[i] == s[i];
    }
    AlnumsNone(front);
    forall i | 0 <= i < |back|
      ensures !IsAlnum(back[i])
    {
      assert back[i] == s[d + n + i];
    }
    AlnumsNone(back);
  }

  lemma {:induction false} AlnumsDashRuns(s: string)
    ensures Alnums(DashRuns(s)) == Alnums(s)
  {
    if s != [] {
      AlnumsDashRuns(s[1..]);
      if IsAlnum(s[0]) {
        AlnumsAppend([s[0]], DashRuns(s[1..]));
      } else if !(|s| > 1 && !IsAlnum(s[1])) {
        AlnumsAppend("-", DashRuns(s[1..]));
      }
    }
  }

  lemma {:induction false} AlnumsStripDashes(s: string)
    ensures Alnums(StripDashes(s)) == Alnums(s)
  {
    AlnumsTrimStart(s, IsDash);
    AlnumsTrimEnd(TrimStart(s, IsDash), IsDash);
  }

  /** Dropping leading characters that are not letters or digits keeps the letters and digits. */
  lemma {:induction false} AlnumsTrimStart(s: string, strip: char -> bool)
    requires forall c :: strip(c) ==> !IsAlnum(c)
    ensures Alnums(TrimStart(s, strip)) == Alnums(s)
  {
    if s != [] && strip(s[0]) {
      AlnumsTrimStart(s[1..], strip);
    }
  }

  /** Dropping trailing characters that are not letters or digits keeps the letters and digits. */
  lemma {:induction false} AlnumsTrimEnd(s: string, strip: char -> bool)
    requires forall c :: strip(c) ==> !IsAlnum(c)
    ensures Alnums(TrimEnd(s, strip)) == Alnums(s)
  {
    if s != [] && strip(s[|s| - 1]) {
      var init, last := s[..|s| - 1], s[|s| - 1];
      AlnumsTrimEnd(init, strip);
      assert s == init + [last];
      AlnumsAppend(init, [last]);
      assert [last][1..] == [];
    }
  }

  /** Characters up to ' ' are neither letters nor digits, lower-cased or not. */
  lemma LowerOfTrimmableNotAlnum(s: string, lo: nat, hi: nat)
    requires lo <= hi <= |s|
    requires forall i :: lo <= i < hi ==> IsJavaTrimmable(s[i])
    ensures forall i :: lo <= i < hi ==> !IsAlnum(Lower(s)[i])
  {
  }

  lemma AlnumsLowerTrim(s: string)
    ensures Alnums(Lower(JavaTrim(s))) == Alnums(Lower(s))
  {
    var t := JavaTrim(s);
    TrimSlice(s, IsJavaTrimmable);
    var d, n := |s| - |TrimStart(s, IsJavaTrimmable)|, |t|;
    assert t == s[d..d + n];
    LowerSlice(s, d, n);
    assert Lower(t) == Lower(s)[d..d + n];
    LowerOfTrimmableNotAlnum(s, 0, d);
    LowerOfTrimmableNotAlnum(s, d + n, |s|);
    AlnumsOfSlice(Lower(s), d, n);
  }

  /** The letters and digits survive every step of slugify that is not the fallback. */
  lemma AlnumsOfSlugSteps(value: string)
    ensures Alnums(StripDashes(DashRuns(Lower(JavaTrim(value))))) == Alnums(Lower(value))
  {
    AlnumsLowerTrim(value);
    AlnumsDashRuns(Lower(JavaTrim(value)));
    AlnumsStripDashes(DashRuns(Lower(JavaTrim(value))));
  }

  /** A slug starts with a letter or digit. */
  lemma SlugHasAlnum(t: string)
    ensures t == [] || !IsSlug(t) || Alnums(t) != []
  {
  }

  /** A name with an ASCII letter or digit is not blank. */
  lemma AlnumsMeanNotBlank(value: string)
    ensures Alnums(Lower(value)) == [] || !IsBlank(value)
  {
    if IsBlank(value) {
      assert forall i :: 0 <= i < |value| ==> !IsAlnum(Lower(value)[i]);
      AlnumsNone(Lower(value));
    }
  }

  /**
   * The slug keeps every ASCII letter and digit of the lower-cased name, in
   * order, and nothing else but dashes.
   */
  lemma SlugKeepsLettersAndDigits(value: string)
    requires Alnums(Lower(value)) != []
    ensures Alnums(Slugify(Some(value))) == Alnums(Lower(value))
  {
    AlnumsMeanNotBlank(value);
    AlnumsOfSlugSteps(value);
    StripDashesGivesSlug(DashRuns(Lower(JavaTrim(value))));
  }

  /** A name without ASCII letters or digits gives "unknown". */
  lemma NoLettersOrDigitsGivesUnknown(value: string)
    requires Alnums(Lower(value)) == []
    ensures Slugify(Some(value)) == Unknown
  {
    var slug := StripDashes(DashRuns(Lower(JavaTrim(value))));
    AlnumsOfSlugSteps(value);
    StripDashesGivesSlug(DashRuns(Lower(JavaTrim(value))));
    SlugHasAlnum(slug);
  }

  // ---------------------------------------------------------------------------
  // Blob names

  /** safeStudentId: "unknown" for a null or blank id, otherwise the id trimmed. */
  function SafeStudentId(studentId: Option<string>): (r: string)
    ensures studentId.None? || IsBlank(studentId.value) ==> r == Unknown
    ensures studentId.Some? && !IsBlank(studentId.value) ==> r == JavaTrim(studentId.value)
  {
    if studentId.None? || IsBlank(studentId.value) then Unknown else JavaTrim(studentId.value)
  }

  /** A calendar date in UTC. */
  datatype Date = Date(year: nat, month: nat, day: nat)

  /** The pattern "yyyy/MM/dd": zero-padded fields. */
  function DatePath(d: Date): string {
    PadLeft(NatToString(d.year), 4, '0') + "/" + PadLeft(NatToString(d.month), 2, '0') + "/"
    + PadLeft(NatToString(d.day), 2, '0')
  }

  /** A four-digit year, a month and a day give exactly "yyyy/MM/dd". */
  lemma DatePathLayout(d: Date)
    requires d.year < 10000 && d.month < 100 && d.day < 100
    ensures var r := DatePath(d); |r| == 10 && r[4] == '/' && r[7] == '/'
    ensures var r := DatePath(d); forall i :: 0 <= i < 10 && i != 4 && i != 7 ==> IsDigit(r[i])
  {
    assert Pow10(4) == 10000 && Pow10(2) == 100 by {
      assert Pow10(0) == 1;
      assert Pow10(1) == 10;
      assert Pow10(2) == 100;
      assert Pow10(3) == 1000;
    }
    NatToStringWidth(d.year, 4);
    NatToStringWidth(d.month, 2);
    NatToStringWidth(d.day, 2);
  }

  const BlobPrefix := "onboarding/"
  const BlobSuffix := ".json"

  /** buildOnboardingBlobName, with the current date and time in milliseconds as parameters. */
  function BuildOnboardingBlobName(studentId: Option<string>, candidateName: Option<string>,
                                   date: Date, millis: int): (r: string)
    ensures |r| > |BlobPrefix| + |BlobSuffix|
    ensures r[..|BlobPrefix|] == BlobPrefix && r[|r| - |BlobSuffix|..] == BlobSuffix
    ensures r == BlobPrefix + DatePath(date) + "/student-" + SafeStudentId(studentId) + "-"
                 + Slugify(candidateName) + "-" + IntToString(millis) + BlobSuffix
  {
    FlatFrame(BlobPrefix, DatePath(date), "/student-", SafeStudentId(studentId), "-", Slugify(candidateName),
              "-", IntToString(millis), BlobSuffix);
    BlobPrefix + DatePath(date) + "/student-" + SafeStudentId(studentId) + "-" + Slugify(candidateName)
    + "-" + IntToString(millis) + BlobSuffix
  }

  /** A name built of nine parts starts with the first, ends with the last and is as long as all of them. */
  lemma FlatFrame(p: string, a: string, b: string, c: string, d: string, e: string, f: string, g: string, s: string)
    ensures var r := p + a + b + c + d + e + f + g + s;
      |r| == |p| + |a| + |b| + |c| + |d| + |e| + |f| + |g| + |s|
      && r[..|p|] == p && r[|r| - |s|..] == s
  {
    var r := p + a + b + c + d + e + f + g + s;
    assert r == p + (a + b + c + d + e + f + g) + s;
  }

  /** Two strings framed alike are equal when the framed strings are. */
  lemma AppendCancel(q: string, a: string, b: string, s: string)
    requires q + a + s == q + b + s
    ensures a == b
  {
    assert |a| == |b|;
    assert a == (q + a + s)[|q|..|q| + |a|];
    assert b == (q + b + s)[|q|..|q| + |b|];
  }

  /** Two runs at different milliseconds never share a blob name. */
  lemma DistinctMillisDistinctNames(studentId: Option<string>, candidateName: Option<string>,
                                    date: Date, m1: int, m2: int)
    requires m1 != m2
    ensures BuildOnboardingBlobName(studentId, candidateName, date, m1)
            != BuildOnboardingBlobName(studentId, candidateName, date, m2)
  {
    var q := BlobPrefix + DatePath(date) + "/student-" + SafeStudentId(studentId) + "-" + Slugify(candidateName) + "-";
    if BuildOnboardingBlobName(studentId, candidateName, date, m1)
       == BuildOnboardingBlobName(studentId, candidateName, date, m2) {
      AppendCancel(q, IntToString(m1), IntToString(m2), BlobSuffix);
      IntToStringInjective(m1, m2);
    }
  }

  // ---------------------------------------------------------------------------
  // Uploads

  const NotConfigured := "Blob storage is not configured."

  /** What the upload attempt does: stores the blob, or throws (with a message that may be null). */
  datatype Attempt = Stored | Throws(message: Option<string>)

  /** The value uploadJson returns. */
  function UploadReply(configured: bool, attempt: Attempt): (r: Option<string>)
    ensures !configured ==> r == Some(NotConfigured)
    ensures configured && attempt.Stored? ==> r == Some("")
    ensures configured && attempt.Throws? ==> r == attempt.message
  {
    if !configured then Some(NotConfigured)
    else if attempt.Stored? then Some("")
    else attempt.message
  }

  class BlobStorageService {
    /** Whether a container client was built. */
    const configured: bool
    /** The container: blob name to JSON text. */
    var blobs: map<string, string>

    constructor (configured: bool, blobs: map<string, string>)
      ensures this.configured == configured && this.blobs == blobs
    {
      this.configured := configured;
      this.blobs := blobs;
    }

    /**
     * uploadJson: without a container nothing is attempted; a successful
     * upload replaces the blob of that name and returns ""; a failed one
     * changes nothing and returns the exception's message.
     */
    method UploadJson(blobName: string, json: string, attempt: Attempt) returns (r: Option<string>)
      modifies this
      ensures r == UploadReply(configured, attempt)
      ensures blobs == if configured && attempt.Stored? then old(blobs)[blobName := json] else old(blobs)
    {
      if !configured {
        return Some(NotConfigured);
      }
      if attempt.Throws? {
        return attempt.message;
      }
      blobs := blobs[blobName := json];
      return Some("");
    }
  }
}
