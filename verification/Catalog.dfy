/** Model sources, parsed and printed: internal/catalog/catalog.go. */
module Catalog {
  import opened Text

  datatype Kind = Hf | S3 | Upload

  datatype Source = Source(kind: Kind, ref: string, bucket: string, key: string, revision: string, raw: string)

  datatype Result = Ok(source: Source) | Unsupported

  function Print(s: Source): string {
    match s.kind
    case S3 => "s3://" + s.bucket + "/" + s.key
    case Upload => "upload:" + s.ref
    case Hf => if s.revision != "" then s.ref + "@" + s.revision else s.ref
  }

  predicate IsAlnum(c: char) {
    'a' <= c <= 'z' || 'A' <= c <= 'Z' || '0' <= c <= '9'
  }

  predicate IsHfSegment(s: string) {
    s != "" && forall c | c in s :: IsAlnum(c) || c == '-' || c == '_' || c == '.'
  }

  predicate IsUploadId(s: string) {
    s != "" && forall c | c in s :: IsAlnum(c) || c == '-' || c == '_'
  }

  predicate IsMark(c: char) { c == '.' || c == '-' }

  predicate ValidBucket(b: string) {
    && 3 <= |b| <= 63
    && (forall c | c in b :: 'a' <= c <= 'z' || '0' <= c <= '9' || IsMark(c))
    && !IsMark(b[0]) && !IsMark(b[|b| - 1])
  }

  function Parse(raw: string): Result {
    var text := Trim(raw);
    if text == "" then Unsupported
    else if HasPrefix(text, "s3://") then ParseS3(text)
    else if HasPrefix(text, "upload:") then ParseUpload(text)
    else ParseHf(text)
  }

  function ParseS3(text: string): Result
    requires HasPrefix(text, "s3://")
  {
    var rest := text[5..];
    var i := Index(rest, '/');
    if i < 0 || i + 1 == |rest| then Unsupported
    else if !ValidBucket(rest[..i]) then Unsupported
    else Ok(Source(S3, rest[i + 1..], rest[..i], rest[i + 1..], "", text))
  }

  function ParseUpload(text: string): Result
    requires HasPrefix(text, "upload:")
  {
    var id := text[7..];
    if IsUploadId(id) then Ok(Source(Upload, id, "", "", "", text)) else Unsupported
  }

  /** Splitting on a slash: at most two segments, each a name. */
  predicate IsHfId(id: string) {
    var i := Index(id, '/');
    if i < 0 then IsHfSegment(id) else IsHfSegment(id[..i]) && IsHfSegment(id[i + 1..])
  }

  function ParseHf(text: string): Result {
    var i := Index(text, '@');
    var id := if i < 0 then text else text[..i];
    var rev := if i < 0 then "" else text[i + 1..];
    if rev != "" && !IsHfSegment(rev) then Unsupported
    else if !IsHfId(id) then Unsupported
    else Ok(Source(Hf, id, "", "", rev, text))
  }

  // ---------------------------------------------------------------- what a parse accepts

  predicate IsIdChar(c: char) { IsAlnum(c) || c == '-' || c == '_' || c == '.' || c == '/' }

  /** The sources a parse can give. */
  ghost predicate WellFormed(s: Source) {
    match s.kind
    case S3 => ValidBucket(s.bucket) && s.key != "" && !IsSpace(s.key[|s.key| - 1]) && s.ref == s.key
         && s.revision == ""
    case Upload => IsUploadId(s.ref) && s.bucket == s.key == s.revision == ""
    case Hf => IsHfId(s.ref) && (s.revision == "" || IsHfSegment(s.revision)) && s.bucket == s.key == ""
  }

  lemma HfIdChars(id: string)
    requires IsHfId(id)
    ensures id != "" && forall c | c in id :: IsIdChar(c)
  {
  }

  lemma ParsedWellFormed(raw: string)
    ensures var r := Parse(raw); r.Ok? ==> WellFormed(r.source) && r.source.raw == Trim(raw)
  {
    hide Trim, IsSpace, ValidBucket, Index, IsUploadId, IsHfId, IsHfSegment;
    var a, b := TrimCuts(raw);
  }

  lemma PlainIsTrimmed(s: string)
    requires s != "" && forall c | c in s :: IsIdChar(c) || c == '@' || c == ':'
    ensures Trimmed(s)
  {
    assert s[0] in s && s[|s| - 1] in s;
  }

  lemma LetterIsNoSpace()
    ensures !IsSpace('s')
  {
  }

  lemma S3Back(s: Source)
    requires WellFormed(s) && s.kind == S3
    ensures Parse(Print(s)) == Ok(s.(raw := Print(s)))
  {
    hide ValidBucket, Trim, Index, IsSpace;
    var text := Print(s);
    var tail := s.bucket + ['/'] + s.key;
    assert text == "s3://" + tail && text[5..] == tail;
    assert text[0] == 's' && text[|text| - 1] == s.key[|s.key| - 1];
    LetterIsNoSpace();
    TrimmedStays(text);
    BucketHasNoSlash(s.bucket);
    FirstAt(s.bucket, '/', s.key);
    assert tail[..|s.bucket|] == s.bucket && tail[|s.bucket| + 1..] == s.key;
  }

  lemma BucketHasNoSlash(b: string)
    requires ValidBucket(b)
    ensures '/' !in b
  {
  }

  lemma FirstAt(a: string, c: char, b: string)
    requires c !in a
    ensures Index(a + [c] + b, c) == |a|
  {
    var s := a + [c] + b;
    assert s[|a|] == c;
    assert forall k | 0 <= k < |a| :: s[k] == a[k];
  }

  lemma UploadBack(s: Source)
    requires WellFormed(s) && s.kind == Upload
    ensures Parse(Print(s)) == Ok(s.(raw := Print(s)))
  {
    var text := Print(s);
    forall c | c in text ensures IsIdChar(c) || c == '@' || c == ':' {
      if c !in s.ref { assert c in "upload:"; }
    }
    PlainIsTrimmed(text);
    TrimmedStays(text);
    assert text[0] == 'u' && text[7..] == s.ref;
  }

  lemma HfChars(id: string, rev: string, text: string)
    requires IsHfId(id) && (rev == "" || IsHfSegment(rev))
    requires text == id || text == id + "@" + rev
    ensures text != "" && forall c | c in text :: IsIdChar(c) || c == '@'
  {
  }

  lemma NoColon(text: string)
    requires forall c | c in text :: IsIdChar(c) || c == '@'
    ensures !HasPrefix(text, "s3://") && !HasPrefix(text, "upload:") && !HasScheme(text)
  {
    forall k | 0 <= k < |text| ensures text[k] != ':' {
      assert text[k] in text;
    }
    assert "s3://"[2] == ':' && "upload:"[6] == ':';
  }

  /** The text holds "://". */
  ghost predicate HasScheme(s: string) {
    exists i :: 0 <= i < |s| - 2 && s[i] == ':' && s[i + 1] == '/' && s[i + 2] == '/'
  }

  lemma HfBack(s: Source)
    requires WellFormed(s) && s.kind == Hf
    ensures Parse(Print(s)) == Ok(s.(raw := Print(s)))
  {
    hide Trim, Trimmed, IsHfId, IsHfSegment, ParseHf, IsIdChar;
    var text := Print(s);
    HfChars(s.ref, s.revision, text);
    NoColon(text);
    PlainIsTrimmed(text);
    TrimmedStays(text);
    HfTextBack(s, text);
  }

  lemma HfTextBack(s: Source, text: string)
    requires WellFormed(s) && s.kind == Hf && text == if s.revision == "" then s.ref else s.ref + ['@'] + s.revision
    ensures ParseHf(text) == Ok(s.(raw := text))
  {
    hide IsHfId, IsHfSegment, Index;
    NoAt(s.ref);
    if s.revision != "" {
      FirstAt(s.ref, '@', s.revision);
      var i := Index(text, '@');
      assert text[..i] == s.ref && text[i + 1..] == s.revision;
    }
  }

  lemma NoAt(id: string)
    requires IsHfId(id)
    ensures '@' !in id && Index(id, '@') < 0
  {
    hide IsHfId, Index;
    HfIdChars(id);
  }

  // ---------------------------------------------------------------- what is promised

  /** Printing an accepted source and parsing it back gives the same source, the raw text aside. */
  lemma RoundTrip(raw: string)
    requires Parse(raw).Ok?
    ensures var s := Parse(raw).source; Parse(Print(s)) == Ok(s.(raw := Print(s)))
  {
    ParsedWellFormed(raw);
    var s := Parse(raw).source;
    match s.kind
    case S3 => S3Back(s);
    case Upload => UploadBack(s);
    case Hf => HfBack(s);
  }

  /** Two accepted sources that print alike are the same source, the raw text aside. */
  lemma PrintInjective(a: string, b: string)
    requires Parse(a).Ok? && Parse(b).Ok? && Print(Parse(a).source) == Print(Parse(b).source)
    ensures Parse(a).source.(raw := "") == Parse(b).source.(raw := "")
  {
    RoundTrip(a);
    RoundTrip(b);
  }

  lemma S3Printed(text: string)
    requires HasPrefix(text, "s3://") && ParseS3(text).Ok?
    ensures Print(ParseS3(text).source) == text
  {
    hide ValidBucket;
    var rest := text[5..];
    var i := Index(rest, '/');
    assert text == "s3://" + rest;
    Rejoin(rest, i);
  }

  lemma Rejoin(rest: string, i: nat)
    requires i < |rest| && rest[i] == '/'
    ensures "s3://" + rest[..i] + "/" + rest[i + 1..] == "s3://" + rest
  {
  }

  lemma HfPrinted(text: string)
    requires ParseHf(text).Ok?
    ensures var s := ParseHf(text).source;
            text == Print(s) || (s.revision == "" && text == Print(s) + "@")
  {
  }

  /** The trimmed input is what is printed, except that an empty revision loses its mark. */
  lemma PrintedIsInput(raw: string)
    requires Parse(raw).Ok?
    ensures var s := Parse(raw).source;
            Trim(raw) == Print(s) || (s.kind == Hf && s.revision == "" && Trim(raw) == Print(s) + "@")
  {
    var text := Trim(raw);
    if HasPrefix(text, "s3://") {
      S3Printed(text);
    } else if HasPrefix(text, "upload:") {
      hide IsUploadId;
      assert text == "upload:" + text[7..];
    } else {
      HfPrinted(text);
    }
  }

  // ---- exactly which texts are accepted

  const LOWER := "abcdefghijklmnopqrstuvwxyz"
  const UPPER := "ABCDEFGHIJKLMNOPQRSTUVWXYZ"
  const DIGITS := "0123456789"

  predicate Letter(c: char) { c in LOWER || c in UPPER || c in DIGITS }

  /** A name over letters, digits and those marks. */
  predicate Named(s: string, marks: string) { s != "" && forall c | c in s :: Letter(c) || c in marks }

  /** 3 to 63 lower-case letters, digits, dots and dashes, a letter or digit at either end. */
  predicate BucketNamed(b: string) {
    && 3 <= |b| <= 63 && (forall c | c in b :: c in LOWER || c in DIGITS || c in ".-")
    && (b[0] in LOWER || b[0] in DIGITS) && (b[|b| - 1] in LOWER || b[|b| - 1] in DIGITS)
  }

  /** One name, or an organisation's. */
  ghost predicate RepoNamed(id: string) {
    Named(id, "-_.") || exists org, name :: id == org + "/" + name && Named(org, "-_.") && Named(name, "-_.")
  }

  lemma LowerIs(c: char)
    ensures c in LOWER <==> 'a' <= c <= 'z'
  {
    if 'a' <= c <= 'z' { assert LOWER[c as int - 'a' as int] == c; }
  }

  lemma UpperIs(c: char)
    ensures c in UPPER <==> 'A' <= c <= 'Z'
  {
    if 'A' <= c <= 'Z' { assert UPPER[c as int - 'A' as int] == c; }
  }

  lemma DigitsAre(c: char)
    ensures c in DIGITS <==> '0' <= c <= '9'
  {
    if '0' <= c <= '9' { assert DIGITS[c as int - '0' as int] == c; }
  }

  lemma AlnumIs(c: char)
    ensures IsAlnum(c) <==> Letter(c)
  {
    LowerIs(c);
    UpperIs(c);
    DigitsAre(c);
  }

  lemma SegmentIs(s: string)
    ensures IsHfSegment(s) <==> Named(s, "-_.")
    ensures IsUploadId(s) <==> Named(s, "-_")
  {
    hide IsAlnum, Letter;
    forall c: char ensures IsAlnum(c) <==> Letter(c) { AlnumIs(c); }
  }

  lemma BucketIs(b: string)
    ensures ValidBucket(b) <==> BucketNamed(b)
  {
    forall c: char
      ensures c in LOWER <==> 'a' <= c <= 'z'
      ensures c in DIGITS <==> '0' <= c <= '9'
      ensures c in ".-" <==> IsMark(c)
    {
      LowerIs(c);
      DigitsAre(c);
    }
    if |b| > 0 { assert b[0] in b && b[|b| - 1] in b; }
  }

  lemma RepoIs(id: string)
    ensures IsHfId(id) <==> RepoNamed(id)
  {
    hide IsHfSegment, Named;
    var i := Index(id, '/');
    SegmentIs(id);
    if i >= 0 {
      SegmentHasNoSlash(id);
      assert id == id[..i] + "/" + id[i + 1..];
      SegmentIs(id[..i]);
      SegmentIs(id[i + 1..]);
    }
    if org, name :| id == org + "/" + name && Named(org, "-_.") && Named(name, "-_.") {
      SegmentIs(org);
      SegmentIs(name);
      SegmentHasNoSlash(org);
      assert id == org + ['/'] + name;
      FirstAt(org, '/', name);
      assert id[..|org|] == org && id[|org| + 1..] == name;
    }
  }

  lemma SegmentHasNoSlash(s: string)
    ensures IsHfSegment(s) ==> '/' !in s
  {
  }

  /** An s3 URI is accepted as its bucket and its whole key, whatever slashes the key holds. */
  lemma S3Accepted(raw: string, bucket: string, key: string)
    requires Trim(raw) == "s3://" + bucket + "/" + key && BucketNamed(bucket) && key != ""
    ensures Parse(raw) == Ok(Source(S3, key, bucket, key, "", Trim(raw)))
  {
    hide Trim, IsSpace, BucketNamed, ValidBucket, Parse;
    var a, b := TrimCuts(raw);
    BucketIs(bucket);
    var text := Trim(raw);
    assert text[|text| - 1] == key[|key| - 1];
    var s := Source(S3, key, bucket, key, "", text);
    S3Back(s);
    ParseOfTrim(raw);
  }

  lemma UploadAccepted(raw: string, id: string)
    requires Trim(raw) == "upload:" + id && Named(id, "-_")
    ensures Parse(raw) == Ok(Source(Upload, id, "", "", "", Trim(raw)))
  {
    hide Trim, Named, Parse;
    SegmentIs(id);
    UploadBack(Source(Upload, id, "", "", "", Trim(raw)));
    ParseOfTrim(raw);
  }

  /** A repository is accepted with or without a revision; the mark of an empty one is let pass. */
  lemma HfAccepted(raw: string, id: string, revision: string)
    requires RepoNamed(id) && (revision == "" || Named(revision, "-_."))
    requires Trim(raw) == id + "@" + revision || (revision == "" && Trim(raw) == id)
    ensures Parse(raw) == Ok(Source(Hf, id, "", "", revision, Trim(raw)))
  {
    hide Trim, Named, RepoNamed, Parse, IsHfId, IsHfSegment;
    RepoIs(id);
    SegmentIs(revision);
    var s := Source(Hf, id, "", "", revision, Trim(raw));
    if revision != "" || Trim(raw) == id {
      HfBack(s);
      ParseOfTrim(raw);
    } else {
      EmptyRevision(raw, id);
    }
  }

  lemma EmptyRevision(raw: string, id: string)
    requires IsHfId(id) && Trim(raw) == id + "@" + ""
    ensures Parse(raw) == Ok(Source(Hf, id, "", "", "", Trim(raw)))
  {
    hide Trim, IsHfId, IsHfSegment;
    var text := Trim(raw);
    assert text == id + ['@'] + "" == id + "@";
    HfIdChars(id);
    NoAt(id);
    FirstAt(id, '@', "");
    assert text[..|id|] == id && text[|id| + 1..] == "";
    NoColon(text);
  }

  lemma ParseOfTrim(raw: string)
    ensures Trim(Trim(raw)) == Trim(raw)
    ensures forall s :: Parse(Trim(raw)) == Ok(s) ==> Parse(raw) == Ok(s)
  {
    hide ParseS3, ParseUpload, ParseHf;
    var a, b := TrimCuts(raw);
    TrimmedStays(Trim(raw));
    hide Trim;
  }

  /** The three forms of text a source can have. */
  ghost predicate S3Form(t: string) {
    exists bucket, key :: t == "s3://" + bucket + "/" + key && BucketNamed(bucket) && key != ""
  }

  ghost predicate UploadForm(t: string) { exists id :: t == "upload:" + id && Named(id, "-_") }

  ghost predicate HfForm(t: string) {
    exists id, revision :: RepoNamed(id) && (revision == "" || Named(revision, "-_."))
                           && (t == id + "@" + revision || (revision == "" && t == id))
  }

  /** A text is accepted exactly when it has one of the three forms. */
  lemma AcceptedIff(raw: string)
    ensures Parse(raw).Ok? <==> S3Form(Trim(raw)) || UploadForm(Trim(raw)) || HfForm(Trim(raw))
  {
    hide Trim, Named, RepoNamed, Parse, BucketNamed;
    var t := Trim(raw);
    if S3Form(t) {
      var bucket, key :| t == "s3://" + bucket + "/" + key && BucketNamed(bucket) && key != "";
      S3Accepted(raw, bucket, key);
    } else if UploadForm(t) {
      var id :| t == "upload:" + id && Named(id, "-_");
      UploadAccepted(raw, id);
    } else if HfForm(t) {
      var id, revision :| RepoNamed(id) && (revision == "" || Named(revision, "-_."))
                          && (t == id + "@" + revision || (revision == "" && t == id));
      HfAccepted(raw, id, revision);
    } else if Parse(raw).Ok? {
      FormOf(raw);
    }
  }

  lemma FormOf(raw: string)
    requires Parse(raw).Ok?
    ensures S3Form(Trim(raw)) || UploadForm(Trim(raw)) || HfForm(Trim(raw))
  {
    ParsedWellFormed(raw);
    PrintedIsInput(raw);
    hide Trim, Named, RepoNamed, Parse, BucketNamed, ValidBucket, IsHfId, IsHfSegment, IsUploadId, IsSpace;
    var s, t := Parse(raw).source, Trim(raw);
    match s.kind
    case S3 =>
      BucketIs(s.bucket);
      assert t == "s3://" + s.bucket + "/" + s.key;
    case Upload =>
      SegmentIs(s.ref);
      assert t == "upload:" + s.ref;
    case Hf =>
      RepoIs(s.ref);
      SegmentIs(s.revision);
      assert s.ref + "@" == s.ref + "@" + "";
      assert t == s.ref + "@" + s.revision || (s.revision == "" && t == s.ref);
  }

  lemma TrimKeepsScheme(raw: string)
    requires HasScheme(raw)
    ensures HasScheme(Trim(raw))
  {
    hide Trim, Trimmed, Spaces, IsSpace;
    var a, b := TrimCuts(raw);
    var t := Trim(raw);
    var i :| 0 <= i < |raw| - 2 && raw[i] == ':' && raw[i + 1] == '/' && raw[i + 2] == '/';
    SchemeIsNoSpace();
    KeptByTrim(a, t, b, i);
    KeptByTrim(a, t, b, i + 1);
    KeptByTrim(a, t, b, i + 2);
    assert t[i - |a|] == ':';
  }

  lemma SchemeIsNoSpace()
    ensures !IsSpace(':') && !IsSpace('/')
  {
  }

  lemma KeptByTrim(a: string, t: string, b: string, i: nat)
    requires Spaces(a) && Spaces(b) && i < |a + t + b| && !IsSpace((a + t + b)[i])
    ensures |a| <= i < |a| + |t| && (a + t + b)[i] == t[i - |a|]
  {
    hide IsSpace;
  }

  /** Any other URI scheme is rejected: an accepted input with a scheme is an s3 one. */
  lemma OnlyS3HasAScheme(raw: string)
    requires Parse(raw).Ok? && HasScheme(raw)
    ensures HasPrefix(Trim(raw), "s3://")
  {
    TrimKeepsScheme(raw);
    var text := Trim(raw);
    hide HasScheme, ParseUpload, ParseHf, ParseS3, Trim;
    if HasPrefix(text, "s3://") {
    } else if HasPrefix(text, "upload:") {
      UploadHasNoScheme(text);
    } else {
      HfHasNoScheme(text);
    }
  }

  lemma UploadHasNoScheme(text: string)
    requires HasPrefix(text, "upload:") && ParseUpload(text).Ok?
    ensures !HasScheme(text)
  {
    assert text == "upload:" + text[7..];
    assert forall k | 7 <= k < |text| :: text[k] in text[7..];
  }

  lemma HfHasNoScheme(text: string)
    requires ParseHf(text).Ok?
    ensures !HasScheme(text)
  {
    var i := Index(text, '@');
    if i < 0 {
      HfChars(text, "", text);
    } else {
      assert text == text[..i] + "@" + text[i + 1..];
      HfChars(text[..i], text[i + 1..], text);
    }
    NoColon(text);
  }
}
