/**
 * The helpers the sync views rely on: path joining, array comparison, the
 * decrypt-with-passthrough rule, clipboard format selection and write
 * dispatch, and seconds formatting.
 */
module Utils {
  import opened Wrappers
  import opened Typedef

  // ---------------------------------------------------------------------
  // join
  // ---------------------------------------------------------------------

  /**
   * A rest argument of `join`: a string, or some other runtime value, known
   * by its truthiness and by what `Array.prototype.join` writes for it
   * ("" for null and undefined, "false", "0", ... otherwise).
   */
  datatype Segment = Str(s: string) | NonString(truthy: bool, shown: string)

  /** The parts separated by `sep`, as `Array.prototype.join` builds them. */
  function Intercalate(sep: string, parts: seq<string>): string
    decreases |parts|
  {
    if |parts| == 0 then ""
    else if |parts| == 1 then parts[0]
    else parts[0] + sep + Intercalate(sep, parts[1..])
  }

  /** Joining one more part puts exactly one separator before it. */
  lemma {:induction false} IntercalateSnoc(sep: string, parts: seq<string>, last: string)
    requires |parts| > 0
    ensures Intercalate(sep, parts + [last]) == Intercalate(sep, parts) + sep + last
  {
    if |parts| == 1 {
      assert parts + [last] == [parts[0], last];
    } else {
      assert (parts + [last])[1..] == parts[1..] + [last];
      IntercalateSnoc(sep, parts[1..], last);
    }
  }

  /** Joining non-empty parts never yields the empty string. */
  lemma {:induction false} IntercalateNonEmpty(sep: string, parts: seq<string>)
    requires |parts| > 0
    requires forall i :: 0 <= i < |parts| ==> parts[i] != ""
    ensures Intercalate(sep, parts) != ""
  {
    if |parts| > 1 {
      assert |Intercalate(sep, parts)| >= |parts[0]|;
    }
  }

  /** What `Array.prototype.join` writes for each segment. */
  function Shown(segments: seq<Segment>): seq<string>
  {
    seq(|segments|, i requires 0 <= i < |segments| =>
      match segments[i]
      case Str(s) => s
      case NonString(_, shown) => shown)
  }

  /** Segment `i` is not a string and every segment before it is. */
  predicate FirstNonString(segments: seq<Segment>, i: nat)
    requires i < |segments|
  {
    segments[i].NonString? && forall j :: 0 <= j < i ==> segments[j].Str?
  }

  /** `segments.find(x => typeof x !== 'string')`: the first segment that is not a string. */
  function FindNonString(segments: seq<Segment>): (found: Option<Segment>)
    ensures found.None? <==> forall i :: 0 <= i < |segments| ==> segments[i].Str?
    ensures found.Some? ==> exists i :: 0 <= i < |segments| && segments[i] == found.value && FirstNonString(segments, i)
  {
    if |segments| == 0 then None
    else if segments[0].NonString? then Some(segments[0])
    else
      var rest := FindNonString(segments[1..]);
      assert forall i :: 1 <= i < |segments| ==> segments[i] == segments[1..][i - 1];
      if rest.Some? then
        var k :| 0 <= k < |segments[1..]| && segments[1..][k] == rest.value && FirstNonString(segments[1..], k);
        assert segments[k + 1] == rest.value && FirstNonString(segments, k + 1);
        rest
      else rest
  }

  /**
   * `join(separator, ...segments)` as written: "" for no segments; null when
   * the first non-string segment is truthy; otherwise the joined text (a
   * falsy non-string segment is joined as its text).
   */
  function Join(sep: string, segments: seq<Segment>): (joined: Option<string>)
    ensures |segments| == 0 ==> joined == Some("")
    ensures joined.None? <==>
              exists i :: 0 <= i < |segments| && FirstNonString(segments, i) && segments[i].truthy
    ensures |segments| > 0 && joined.Some? ==> joined.value == Intercalate(sep, Shown(segments))
  {
    if |segments| == 0 then Some("")
    else
      var found := FindNonString(segments);
      assert forall i, j :: 0 <= i < j < |segments| && FirstNonString(segments, i) ==> !FirstNonString(segments, j);
      match found
      case Some(NonString(true, _)) => None
      case _ => Some(Intercalate(sep, Shown(segments)))
  }

  /** The falsy `undefined` in a rest argument slips through the type check of `Join`. */
  lemma JoinLetsFalsySegmentThrough()
    ensures Join("/", [Str("home"), NonString(false, "")]) == Some("home/")
    ensures JoinChecked("/", [Str("home"), NonString(false, "")]).None?
  {
    var segments := [Str("home"), NonString(false, "")];
    assert FindNonString(segments) == Some(NonString(false, ""));
    assert Shown(segments) == ["home", ""];
    IntercalateSnoc("/", ["home"], "");
    assert ["home"] + [""] == ["home", ""];
    assert Intercalate("/", ["home"]) == "home";
    assert Intercalate("/", ["home", ""]) == "home/";
    assert Join("/", segments) == Some(Intercalate("/", Shown(segments)));
  }

  /** `join` as its documentation intends it: null as soon as any segment is not a string. */
  function JoinChecked(sep: string, segments: seq<Segment>): (joined: Option<string>)
    ensures joined.None? <==> exists i :: 0 <= i < |segments| && segments[i].NonString?
    ensures joined.Some? ==> joined.value == Intercalate(sep, Shown(segments))
  {
    if FindNonString(segments).Some? then None
    else Some(Intercalate(sep, Shown(segments)))
  }

  /** The two agree on every input without a falsy non-string segment. */
  lemma JoinAgreesWithCheckedJoin(sep: string, segments: seq<Segment>)
    requires |segments| > 0
    requires forall i :: 0 <= i < |segments| && segments[i].NonString? ==> segments[i].truthy
    ensures Join(sep, segments) == JoinChecked(sep, segments)
  {
  }

  // ---------------------------------------------------------------------
  // arraysEqual
  // ---------------------------------------------------------------------

  /**
   * `arraysEqual(a, b)`: the same reference (null included), or two non-null
   * arrays of equal length that agree at every index.
   */
  method ArraysEqual<T(==)>(a: array?<T>, b: array?<T>) returns (equal: bool)
    ensures equal <==> a == b || (a != null && b != null && a[..] == b[..])
  {
    if a == b {
      return true;
    }
    if a == null || b == null {
      return false;
    }
    if a.Length != b.Length {
      return false;
    }
    var i := 0;
    while i < a.Length
      invariant 0 <= i <= a.Length
      invariant forall k :: 0 <= k < i ==> a[k] == b[k]
    {
      if a[i] != b[i] {
        assert a[..][i] != b[..][i];
        return false;
      }
      i := i + 1;
    }
    assert a[..] == b[..];
    return true;
  }

  // ---------------------------------------------------------------------
  // encryptContent / decryptContent
  // ---------------------------------------------------------------------

  /**
   * The AES primitive of the crypto library, left uninterpreted:
   * `encrypt(content, password)` is the ciphertext text and
   * `decryptUtf8(content, password)` the UTF-8 text of the decryption: None
   * when rendering it as UTF-8 throws (malformed data, the usual outcome of a
   * wrong password or a text that is not a ciphertext), Some("") when the
   * decryption is empty.
   */
  datatype Cipher = Cipher(encrypt: (string, string) -> string, decryptUtf8: (string, string) -> Option<string>)

  function EncryptContent(cipher: Cipher, content: string, password: string): string
  {
    cipher.encrypt(content, password)
  }

  /**
   * Decryption with passthrough: the decrypted text when it is non-empty,
   * else the input itself; None when the decryption throws.
   */
  function DecryptContent(cipher: Cipher, content: string, password: string): (plain: Option<string>)
    ensures plain.None? <==> cipher.decryptUtf8(content, password).None?
    ensures Truthy(cipher.decryptUtf8(content, password)) ==> plain == cipher.decryptUtf8(content, password)
    ensures cipher.decryptUtf8(content, password) == Some("") ==> plain == Some(content)
    ensures plain == Some("") ==> content == ""
  {
    match cipher.decryptUtf8(content, password)
    case None => None
    case Some(decrypted) => Some(if decrypted != "" then decrypted else content)
  }

  /** Encrypt-then-decrypt with the same password returns a non-empty plaintext. */
  lemma DecryptAfterEncrypt(cipher: Cipher, plain: string, password: string)
    requires cipher.decryptUtf8(cipher.encrypt(plain, password), password) == Some(plain)
    requires plain != ""
    ensures DecryptContent(cipher, EncryptContent(cipher, plain, password), password) == Some(plain)
  {
  }

  /** A text whose decryption is empty comes back unchanged. */
  lemma DecryptPassthrough(cipher: Cipher, content: string, password: string)
    requires cipher.decryptUtf8(content, password) == Some("")
    ensures DecryptContent(cipher, content, password) == Some(content)
  {
  }

  /** The empty plaintext does not survive the round trip: its ciphertext comes back. */
  lemma EmptyPlaintextComesBackEncrypted(cipher: Cipher, password: string)
    requires cipher.decryptUtf8(cipher.encrypt("", password), password) == Some("")
    ensures DecryptContent(cipher, EncryptContent(cipher, "", password), password)
            == Some(EncryptContent(cipher, "", password))
  {
  }

  // ---------------------------------------------------------------------
  // readClipboardData
  // ---------------------------------------------------------------------

  /** ASCII lower-casing, the only folding a case-insensitive pattern of ASCII letters sees. */
  function LowerAscii(c: char): char
  {
    if 'A' <= c <= 'Z' then (c as int + 32) as char else c
  }

  function Lower(s: string): (r: string)
    ensures |r| == |s|
  {
    if s == [] then [] else [LowerAscii(s[0])] + Lower(s[1..])
  }

  lemma {:induction false} LowerAppend(a: string, b: string)
    ensures Lower(a + b) == Lower(a) + Lower(b)
  {
    if a == [] {
      assert a + b == b;
    } else {
      assert (a + b)[0] == a[0];
      assert (a + b)[1..] == a[1..] + b;
      LowerAppend(a[1..], b);
      assert Lower(a + b) == [LowerAscii(a[0])] + Lower(a[1..] + b);
    }
  }

  predicate HasPrefix(s: string, prefix: string)
  {
    |prefix| <= |s| && s[..|prefix|] == prefix
  }

  predicate EndsWith(s: string, suffix: string)
  {
    |suffix| <= |s| && s[|s| - |suffix|..] == suffix
  }

  /** An unanchored regular-expression alternative: `pat` occurs somewhere in `s`. */
  predicate Contains(s: string, pat: string)
    decreases |s|
  {
    HasPrefix(s, pat) || (|s| > 0 && Contains(s[1..], pat))
  }

  lemma {:induction false} ContainsInfix(x: string, pat: string, y: string)
    ensures Contains(x + pat + y, pat)
  {
    if x == [] {
      assert x + pat + y == pat + y;
      assert (pat + y)[..|pat|] == pat;
    } else {
      assert (x + pat + y)[1..] == x[1..] + pat + y;
      ContainsInfix(x[1..], pat, y);
    }
  }

  /**
   * `/\.png|\.jpg|\.jpeg|\.gif|\.bmp|\.webp$/i`: the anchor binds to the last
   * alternative only, so every extension but `.webp` matches anywhere.
   */
  predicate IsImagePath(path: string)
  {
    var p := Lower(path);
    Contains(p, ".png") || Contains(p, ".jpg") || Contains(p, ".jpeg") ||
    Contains(p, ".gif") || Contains(p, ".bmp") || EndsWith(p, ".webp")
  }

  /** A `.png` (in any letter case) anywhere in the path is accepted, not only at its end. */
  lemma {:induction false} PngAcceptedAnywhere(prefix: string, suffix: string)
    ensures IsImagePath(prefix + ".png" + suffix)
    ensures IsImagePath(prefix + ".PNG" + suffix)
  {
    LowerAppend(prefix + ".png", suffix);
    LowerAppend(prefix, ".png");
    LowerAppend(prefix + ".PNG", suffix);
    LowerAppend(prefix, ".PNG");
    assert Lower(".png") == ".png";
    assert Lower(".PNG") == ".png";
    ContainsInfix(Lower(prefix), ".png", Lower(suffix));
  }

  /** `.webp` is accepted at the end of the path, but not inside it. */
  lemma WebpAcceptedAtEnd(prefix: string)
    ensures IsImagePath(prefix + ".webp")
    ensures !IsImagePath("a.webp.txt")
  {
    WebpSuffixAccepted(prefix);
    WebpInsideRejected();
  }

  lemma {:induction false} WebpSuffixAccepted(prefix: string)
    ensures IsImagePath(prefix + ".webp")
  {
    LowerAppend(prefix, ".webp");
    assert Lower(".webp") == ".webp";
    var p := Lower(prefix + ".webp");
    assert p[|p| - 5..] == ".webp";
  }

  /**
   * A lower-case path in which no dot starts `.p`, `.j`, `.g` or `.b`, and
   * which does not end with `.webp`, is rejected, whatever `.webp` it holds
   * elsewhere.
   */
  lemma NonFinalWebpRejected(p: string)
    requires forall i :: 0 <= i < |p| ==> !('A' <= p[i] <= 'Z')
    requires forall i :: 0 <= i < |p| - 1 && p[i] == '.' ==>
               p[i + 1] != 'p' && p[i + 1] != 'j' && p[i + 1] != 'g' && p[i + 1] != 'b'
    requires !EndsWith(p, ".webp")
    ensures !IsImagePath(p)
  {
    LowerOfLower(p);
    DotPatternAbsent(p, ".png");
    DotPatternAbsent(p, ".jpg");
    DotPatternAbsent(p, ".jpeg");
    DotPatternAbsent(p, ".gif");
    DotPatternAbsent(p, ".bmp");
  }

  lemma WebpInsideRejected()
    ensures !IsImagePath("a.webp.txt")
  {
    var p := "a.webp.txt";
    assert p[|p| - 5..][0] == 'p';
    NonFinalWebpRejected(p);
  }

  /** Text without upper-case ASCII letters is its own lower-case form. */
  lemma {:induction false} LowerOfLower(s: string)
    requires forall i :: 0 <= i < |s| ==> !('A' <= s[i] <= 'Z')
    ensures Lower(s) == s
  {
    if s != [] {
      LowerOfLower(s[1..]);
    }
  }

  /** `pat` occurs in `s` starting at position `i`. */
  predicate OccursAt(s: string, pat: string, i: nat)
  {
    i + |pat| <= |s| && s[i..i + |pat|] == pat
  }

  /** An unanchored match needs an occurrence: when `pat` starts at no position of the text, it is not contained. */
  lemma {:induction false} AbsentWithoutOccurrence(s: string, pat: string)
    requires forall i: nat :: !OccursAt(s, pat, i)
    ensures !Contains(s, pat)
    decreases |s|
  {
    assert !OccursAt(s, pat, 0);
    if |pat| <= |s| {
      assert s[0..0 + |pat|] == s[..|pat|];
    }
    if |s| > 0 {
      forall i: nat
        ensures !OccursAt(s[1..], pat, i)
      {
        assert !OccursAt(s, pat, i + 1);
        if i + |pat| <= |s[1..]| {
          assert s[1..][i..i + |pat|] == s[i + 1..i + 1 + |pat|];
        }
      }
      AbsentWithoutOccurrence(s[1..], pat);
    }
  }

  /** A pattern `.x...` is absent when no dot of the text is followed by `x`. */
  lemma DotPatternAbsent(s: string, pat: string)
    requires |pat| >= 2 && pat[0] == '.'
    requires forall i :: 0 <= i < |s| - 1 && s[i] == '.' ==> s[i + 1] != pat[1]
    ensures !Contains(s, pat)
  {
    forall i: nat
      ensures !OccursAt(s, pat, i)
    {
      if i + |pat| <= |s| {
        assert s[i..i + |pat|][0] == s[i] && s[i..i + |pat|][1] == s[i + 1];
      }
    }
    AbsentWithoutOccurrence(s, pat);
  }

  /**
   * What the native clipboard plugin reports at read time: the five format
   * probes and what each reader returns. `firstFileBase64` is the Base64 text
   * of the first listed file, None when it does not exist.
   */
  datatype ClipboardProbe = ClipboardProbe(
    hasText: bool, hasImage: bool, hasHtml: bool, hasRtf: bool, hasFiles: bool,
    files: seq<string>, firstFileBase64: Option<string>,
    imageBase64: string, html: string, text: string, rtf: string)

  /** The files reader: only the first path, only an image path, only a non-empty file. */
  function ReadFiles(probe: ClipboardProbe): (data: Option<ClipboardData>)
    ensures data.Some? <==> |probe.files| > 0 && probe.files[0] != "" && IsImagePath(probe.files[0]) &&
                            Truthy(probe.firstFileBase64)
    ensures data.Some? ==> data.value == ClipboardData("image", probe.firstFileBase64.value, None, Local)
  {
    if |probe.files| == 0 || probe.files[0] == "" || !IsImagePath(probe.files[0]) then None
    else match probe.firstFileBase64
      case Some(content) => if content != "" then Some(ClipboardData(Tag(Image), content, None, Local)) else None
      case None => None
  }

  /** `readClipboardData()`: the first present format in the order files, image, html, rtf, text. */
  function ReadClipboardData(probe: ClipboardProbe): (data: Option<ClipboardData>)
    ensures data.Some? ==> data.value.source == Local && data.value.tag in KindTags
    ensures data.Some? ==> (data.value.plaintext.Some? <==> data.value.tag == "html")
    ensures data.None? <==>
              (!probe.hasFiles && !probe.hasImage && !probe.hasHtml && !probe.hasRtf && !probe.hasText) ||
              (probe.hasFiles && ReadFiles(probe).None?)
    ensures probe.hasFiles ==> data == ReadFiles(probe)
    ensures !probe.hasFiles && probe.hasImage ==> data == Some(ClipboardData("image", probe.imageBase64, None, Local))
    ensures !probe.hasFiles && !probe.hasImage && probe.hasHtml ==>
              data == Some(ClipboardData("html", probe.html, Some(probe.text), Local))
    ensures !probe.hasFiles && !probe.hasImage && !probe.hasHtml && probe.hasRtf ==>
              data == Some(ClipboardData("rtf", probe.rtf, None, Local))
    ensures !probe.hasFiles && !probe.hasImage && !probe.hasHtml && !probe.hasRtf && probe.hasText ==>
              data == Some(ClipboardData("text", probe.text, None, Local))
  {
    if probe.hasFiles then ReadFiles(probe)
    else if probe.hasImage then Some(ClipboardData(Tag(Image), probe.imageBase64, None, Local))
    else if probe.hasHtml then Some(ClipboardData(Tag(Html), probe.html, Some(probe.text), Local))
    else if probe.hasRtf then Some(ClipboardData(Tag(Rtf), probe.rtf, None, Local))
    else if probe.hasText then Some(ClipboardData(Tag(Text), probe.text, None, Local))
    else None
  }

  /** Each kind is read only when every format of higher priority is absent. */
  lemma ReaderPriority(probe: ClipboardProbe)
    ensures var d := ReadClipboardData(probe);
      && (d.Some? && d.value.tag == "image" ==> probe.hasFiles || probe.hasImage)
      && (d.Some? && d.value.tag == "html" ==> !probe.hasFiles && !probe.hasImage && probe.hasHtml)
      && (d.Some? && d.value.tag == "rtf" ==> !probe.hasFiles && !probe.hasImage && !probe.hasHtml && probe.hasRtf)
      && (d.Some? && d.value.tag == "text" ==>
            !probe.hasFiles && !probe.hasImage && !probe.hasHtml && !probe.hasRtf && probe.hasText)
      && (probe.hasFiles && d.Some? ==> d.value.tag == "image" && IsImagePath(probe.files[0]))
  {
  }

  // ---------------------------------------------------------------------
  // writeToClipboard / htmlToText
  // ---------------------------------------------------------------------

  /**
   * `htmlToText(html)`: "" for the empty string; otherwise the text content of
   * the parsed document, which `textContent` stands for.
   */
  function HtmlToText(textContent: string -> string, html: string): (text: string)
    ensures html == "" ==> text == ""
  {
    if html == "" then "" else textContent(html)
  }

  /** The platform call a write dispatches to. */
  datatype WriteCall =
    | WriteText(text: string)
    | WriteImageBase64(base64: string)
    | WriteHtmlAndText(html: string, plain: string)
    | WriteRtf(rtf: string)
    | WarnOnly           // the 'files' entry only logs a warning
    | NotAFunction       // no entry for the tag: the call throws

  predicate Truthy(s: Option<string>)
  {
    s.Some? && s.value != ""
  }

  /** `writeToClipboard(type, content, plaintext)`: dispatch on the tag through the writer table. */
  function WriteToClipboard(tag: string, content: string, plaintext: Option<string>,
                            textContent: string -> string): (call: WriteCall)
    ensures call.NotAFunction? <==> tag !in KindTags + {"files"}
    ensures call.WarnOnly? <==> tag == "files"
    ensures tag == "text" ==> call == WriteText(content)
    ensures tag == "image" ==> call == WriteImageBase64(content)
    ensures tag == "rtf" ==> call == WriteRtf(content)
    ensures call.WriteHtmlAndText? <==> tag == "html"
    ensures call.WriteHtmlAndText? ==>
              call.html == content &&
              call.plain == (if Truthy(plaintext) then plaintext.value else HtmlToText(textContent, content))
  {
    if tag == "files" then WarnOnly
    else if tag == "text" then WriteText(content)
    else if tag == "image" then WriteImageBase64(content)
    else if tag == "html" then
      var plain := if Truthy(plaintext) then plaintext.value else HtmlToText(textContent, content);
      WriteHtmlAndText(content, plain)
    else if tag == "rtf" then WriteRtf(content)
    else NotAFunction
  }

  /** The primary content a platform write puts on the clipboard. */
  function Written(call: WriteCall): Option<string>
  {
    match call
    case WriteText(t) => Some(t)
    case WriteImageBase64(b) => Some(b)
    case WriteHtmlAndText(h, _) => Some(h)
    case WriteRtf(r) => Some(r)
    case WarnOnly => None
    case NotAFunction => None
  }

  /**
   * Exactly the four kind tags reach a real platform writer, which carries
   * the content unchanged; any other tag writes nothing.
   */
  lemma EveryKindIsWritten(tag: string, content: string, plaintext: Option<string>,
                           textContent: string -> string)
    ensures tag in KindTags ==> Written(WriteToClipboard(tag, content, plaintext, textContent)) == Some(content)
    ensures tag !in KindTags ==> Written(WriteToClipboard(tag, content, plaintext, textContent)).None?
  {
  }

  /** An HTML payload without a plain-text rendering falls back to `htmlToText`, and the empty document to "". */
  lemma HtmlFallback(textContent: string -> string, plaintext: Option<string>)
    requires !Truthy(plaintext)
    ensures WriteToClipboard("html", "", plaintext, textContent) == WriteHtmlAndText("", "")
  {
  }

  // ---------------------------------------------------------------------
  // formatSeconds
  // ---------------------------------------------------------------------

  function DigitChar(d: nat): char
    requires d < 10
  {
    ('0' as int + d) as char
  }

  /** The decimal text of a natural number, as `String(n)` writes it below 10^21. */
  function NatToString(n: nat): (s: string)
    ensures |s| >= 1
    decreases n
  {
    if n < 10 then [DigitChar(n)] else NatToString(n / 10) + [DigitChar(n % 10)]
  }

  /** Decimal text has no leading zero: it starts with '0' exactly for zero. */
  lemma {:induction false} LeadingZeroOnlyForZero(n: nat)
    ensures NatToString(n)[0] == '0' <==> n == 0
  {
    if n >= 10 {
      LeadingZeroOnlyForZero(n / 10);
      assert NatToString(n)[0] == NatToString(n / 10)[0];
    }
  }

  /** Hours, minutes and seconds of `formatSeconds`. */
  datatype Clock = Clock(h: nat, m: nat, s: nat)

  function Split(seconds: nat): (c: Clock)
    ensures c.h * 3600 + c.m * 60 + c.s == seconds
    ensures c.m < 60 && c.s < 60
  {
    var c := Clock(seconds / 3600, (seconds % 3600) / 60, seconds % 60);
    assert seconds % 3600 == (seconds % 3600) / 60 * 60 + seconds % 60 by {
      assert seconds == seconds / 3600 * 3600 + seconds % 3600;
      assert seconds % 3600 == (seconds % 3600) / 60 * 60 + (seconds % 3600) % 60;
      assert 3600 == 60 * 60;
      ModOfMod(seconds);
    }
    c
  }

  lemma ModOfMod(n: nat)
    ensures (n % 3600) % 60 == n % 60
  {
    var q := n / 3600;
    assert n == q * 3600 + n % 3600;
    assert q * 3600 == (q * 60) * 60;
  }

  /** `.filter(unit => unit[0] !== '0')` over non-empty units. */
  function DropLeadingZero(units: seq<string>): seq<string>
    requires forall i :: 0 <= i < |units| ==> units[i] != ""
  {
    if units == [] then []
    else (if units[0][0] != '0' then [units[0]] else []) + DropLeadingZero(units[1..])
  }

  /** `formatSeconds(seconds)` for a natural number of seconds. */
  function FormatSeconds(seconds: nat): string
  {
    var c := Split(seconds);
    Intercalate(" ", DropLeadingZero([NatToString(c.h) + "h", NatToString(c.m) + "m", NatToString(c.s) + "s"]))
  }

  /** The non-zero units of a clock, in order h, m, s. */
  function NonZeroUnits(c: Clock): seq<string>
  {
    (if c.h != 0 then [NatToString(c.h) + "h"] else []) +
    (if c.m != 0 then [NatToString(c.m) + "m"] else []) +
    (if c.s != 0 then [NatToString(c.s) + "s"] else [])
  }

  /** `formatSeconds` shows exactly the non-zero units, separated by single spaces. */
  lemma {:induction false} FormatSecondsShowsNonZeroUnits(seconds: nat)
    ensures FormatSeconds(seconds) == Intercalate(" ", NonZeroUnits(Split(seconds)))
  {
    var c := Split(seconds);
    var units := [NatToString(c.h) + "h", NatToString(c.m) + "m", NatToString(c.s) + "s"];
    LeadingZeroOnlyForZero(c.h);
    LeadingZeroOnlyForZero(c.m);
    LeadingZeroOnlyForZero(c.s);
    assert units[0][0] == NatToString(c.h)[0];
    assert units[1][0] == NatToString(c.m)[0];
    assert units[2][0] == NatToString(c.s)[0];
    assert units[1..][1..] == [units[2]];
    assert DropLeadingZero([units[2]]) == (if c.s != 0 then [units[2]] else []);
    assert DropLeadingZero(units) == NonZeroUnits(c);
  }

  /** The text is empty exactly for zero seconds. */
  lemma {:induction false} FormatSecondsEmptyIffZero(seconds: nat)
    ensures FormatSeconds(seconds) == "" <==> seconds == 0
  {
    FormatSecondsShowsNonZeroUnits(seconds);
    var c := Split(seconds);
    var units := NonZeroUnits(c);
    if seconds == 0 {
      assert c == Clock(0, 0, 0);
      assert units == [];
    } else {
      assert c.h != 0 || c.m != 0 || c.s != 0;
      assert |units| > 0;
      forall i | 0 <= i < |units| ensures units[i] != "" {
      }
      IntercalateNonEmpty(" ", units);
    }
  }
}
