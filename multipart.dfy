/**
 * The `multipart/form-data` body of a dispatch request (RFC 7578 section 4,
 * with the boundary syntax of RFC 2046 section 5.1.1). The builder appends
 * the parts to a growing byte buffer exactly as the client does; a reader
 * that splits a body at its delimiters is the independent partner, and the
 * round-trip lemmas show that the reader gets back every part, in order,
 * provided no part contains the delimiter (the RFC's requirement on a
 * boundary).
 */
module Multipart {
  import opened Wrappers
  import opened Text

  const CR: Byte := 13
  const CRLF: Bytes := [13, 10]
  const BlankLine: Bytes := [13, 10, 13, 10]
  const DoubleDash: Bytes := [45, 45]

  /** `--boundary`: the dash-boundary that opens each part. */
  function DashBoundary(boundary: string): Bytes {
    Utf8("--" + boundary)
  }

  /** The delimiter between parts: CRLF followed by the dash-boundary. */
  function Delimiter(boundary: string): (d: Bytes)
    ensures |d| > 2 && d[..2] == CRLF
  {
    CRLF + DashBoundary(boundary)
  }

  /** A form part: a text field, or a file with a file name and a media type. */
  datatype Part =
    | Field(name: string, value: string)
    | File(name: string, filename: string, mime: string, data: Bytes)

  function DispositionLine(p: Part): string {
    match p
    case Field(name, _) => "Content-Disposition: form-data; name=\"" + name + "\""
    case File(name, filename, _, _) => "Content-Disposition: form-data; name=\"" + name + "\"; filename=\"" + filename + "\""
  }

  /** The part's header lines, CRLF-separated, without the blank line that ends them. */
  function Headers(p: Part): Bytes {
    match p
    case Field(_, _) => Utf8(DispositionLine(p))
    case File(_, _, mime, _) => Utf8(DispositionLine(p)) + CRLF + Utf8("Content-Type: " + mime)
  }

  /** The part's body: the field's text in UTF-8, or the file's bytes. */
  function Content(p: Part): Bytes {
    match p
    case Field(_, value) => Utf8(value)
    case File(_, _, _, data) => data
  }

  /** What RFC 2046 calls a body part: headers, a blank line, the content. */
  function Encapsulation(p: Part): Bytes {
    Headers(p) + BlankLine + Content(p)
  }

  /** `--boundary--` and CRLF: the close-delimiter line that ends the body. */
  function CloseLine(dash: Bytes): Bytes {
    dash + DoubleDash + CRLF
  }

  /**
   * The client's layout of a body whose parts have the given body parts: for
   * each, the dash-boundary, CRLF, the body part, CRLF; then the close line.
   */
  function Layout(dash: Bytes, es: seq<Bytes>): Bytes {
    if es == [] then CloseLine(dash) else PartLines(dash, es[0]) + Layout(dash, es[1..])
  }

  /** One part as the client lays it out: the dash-boundary, CRLF, the body part, CRLF. */
  function PartLines(dash: Bytes, e: Bytes): Bytes {
    dash + CRLF + e + CRLF
  }

  function Encapsulations(parts: seq<Part>): (es: seq<Bytes>)
    ensures |es| == |parts| && forall i :: 0 <= i < |parts| ==> es[i] == Encapsulation(parts[i])
  {
    if parts == [] then [] else [Encapsulation(parts[0])] + Encapsulations(parts[1..])
  }

  /** The whole body for a list of parts. */
  function FormBody(boundary: string, parts: seq<Part>): Bytes {
    Layout(DashBoundary(boundary), Encapsulations(parts))
  }

  /** The protocol tag the client sends in the `mode` field. */
  function DispatchMode(): string {
    "pathlight_dispatch_v1"
  }

  /**
   * The four parts of a dispatch request, in the order the client adds them:
   * the protocol tag, the selected voice, the speech flag as "1" or "0", and
   * the recorded audio unchanged. No name, file name or media type holds a
   * carriage return, so every part's headers are well formed.
   */
  function DispatchParts(voice: string, useServerTTS: bool, audio: Bytes): (ps: seq<Part>)
    ensures |ps| == 4 && ps[0].Field? && ps[1].Field? && ps[2].Field? && ps[3].File?
    ensures ps[1].value == voice && ps[3].data == audio
    ensures ps[2].value == "1" <==> useServerTTS
    ensures forall i :: 0 <= i < |ps| ==> '\r' !in ps[i].name
    ensures '\r' !in ps[3].filename && '\r' !in ps[3].mime
  {
    [ Field("mode", DispatchMode()),
      Field("voice", voice),
      Field("tts", if useServerTTS then "1" else "0"),
      File("audio", "speech.m4a", "audio/mp4", audio) ]
  }

  // ------------------------------------------------------------ Builder

  lemma LiteralBytes()
    ensures Utf8("\r\n") == CRLF && Utf8("\r\n\r\n") == BlankLine && Utf8("--\r\n") == DoubleDash + CRLF
  {
    assert "\r\n\r\n" == "\r\n" + "\r\n";
    Utf8Append("\r\n", "\r\n");
    assert "--\r\n" == "--" + "\r\n";
    Utf8Append("--", "\r\n");
  }

  /** The nested `addField`: appends the dash-boundary line, the disposition header and blank line, then the value line. */
  method AddField(body: Bytes, boundary: string, name: string, value: string) returns (grown: Bytes)
    ensures grown == body + PartLines(DashBoundary(boundary), Encapsulation(Field(name, value)))
  {
    grown := body + Utf8("--" + boundary + "\r\n");
    grown := grown + Utf8(DispositionLine(Field(name, value)) + "\r\n\r\n");
    grown := grown + Utf8(value + "\r\n");
    LiteralBytes();
    Utf8Append("--" + boundary, "\r\n");
    Utf8Append(DispositionLine(Field(name, value)), "\r\n\r\n");
    Utf8Append(value, "\r\n");
    RegroupField(body, DashBoundary(boundary), Utf8(DispositionLine(Field(name, value))), Utf8(value));
  }

  lemma RegroupField(body: Bytes, dash: Bytes, h: Bytes, v: Bytes)
    ensures body + (dash + CRLF) + (h + BlankLine) + (v + CRLF) == body + PartLines(dash, h + BlankLine + v)
  {
  }

  /** The nested `addFile`: dash-boundary line, disposition header, content-type header and blank line, the data, CRLF. */
  method AddFile(body: Bytes, boundary: string, name: string, filename: string, mime: string, data: Bytes)
    returns (grown: Bytes)
    ensures grown == body + PartLines(DashBoundary(boundary), Encapsulation(File(name, filename, mime, data)))
  {
    var p := File(name, filename, mime, data);
    grown := body + Utf8("--" + boundary + "\r\n");
    grown := grown + Utf8(DispositionLine(p) + "\r\n");
    grown := grown + Utf8("Content-Type: " + mime + "\r\n\r\n");
    grown := grown + data;
    grown := grown + Utf8("\r\n");
    LiteralBytes();
    Utf8Append("--" + boundary, "\r\n");
    Utf8Append(DispositionLine(p), "\r\n");
    Utf8Append("Content-Type: " + mime, "\r\n\r\n");
    RegroupFile(body, DashBoundary(boundary), Utf8(DispositionLine(p)), Utf8("Content-Type: " + mime), data);
  }

  lemma RegroupFile(body: Bytes, dash: Bytes, h1: Bytes, h2: Bytes, data: Bytes)
    ensures body + (dash + CRLF) + (h1 + CRLF) + (h2 + BlankLine) + data + CRLF
         == body + PartLines(dash, (h1 + CRLF + h2) + BlankLine + data)
  {
  }

  lemma LayoutOfFour(dash: Bytes, e0: Bytes, e1: Bytes, e2: Bytes, e3: Bytes)
    ensures Layout(dash, [e0, e1, e2, e3])
         == PartLines(dash, e0) + (PartLines(dash, e1) + (PartLines(dash, e2) + (PartLines(dash, e3) + CloseLine(dash))))
  {
    assert [e0, e1, e2, e3][1..] == [e1, e2, e3];
    assert [e1, e2, e3][1..] == [e2, e3];
    assert [e2, e3][1..] == [e3];
    assert [e3][1..] == [];
    assert Layout(dash, [e3]) == PartLines(dash, e3) + CloseLine(dash);
    assert Layout(dash, [e2, e3]) == PartLines(dash, e2) + Layout(dash, [e3]);
    assert Layout(dash, [e1, e2, e3]) == PartLines(dash, e1) + Layout(dash, [e2, e3]);
  }

  /**
   * The body `sendToBackend` builds: fields `mode`, `voice` (the selected
   * voice) and `tts` ("1" or "0"), the `audio` file part, the close line.
   */
  method BuildDispatchBody(boundary: string, voice: string, useServerTTS: bool, audio: Bytes) returns (body: Bytes)
    ensures body == FormBody(boundary, DispatchParts(voice, useServerTTS, audio))
  {
    body := [];
    body := AddField(body, boundary, "mode", DispatchMode());
    body := AddField(body, boundary, "voice", voice);
    body := AddField(body, boundary, "tts", if useServerTTS then "1" else "0");
    body := AddFile(body, boundary, "audio", "speech.m4a", "audio/mp4", audio);
    body := body + Utf8("--" + boundary + "--\r\n");
    CloseLineBytes(boundary);
    FourPartBody(boundary, Field("mode", DispatchMode()), Field("voice", voice),
      Field("tts", if useServerTTS then "1" else "0"), File("audio", "speech.m4a", "audio/mp4", audio));
  }

  /** Appending four parts one by one, then the close line, lays out the form of those parts. */
  lemma FourPartBody(boundary: string, q0: Part, q1: Part, q2: Part, q3: Part)
    ensures var dash := DashBoundary(boundary);
      [] + PartLines(dash, Encapsulation(q0)) + PartLines(dash, Encapsulation(q1))
         + PartLines(dash, Encapsulation(q2)) + PartLines(dash, Encapsulation(q3))
         + CloseLine(dash)
      == FormBody(boundary, [q0, q1, q2, q3])
  {
    var dash := DashBoundary(boundary);
    var es := Encapsulations([q0, q1, q2, q3]);
    var p0, p1, p2, p3 := PartLines(dash, es[0]), PartLines(dash, es[1]), PartLines(dash, es[2]), PartLines(dash, es[3]);
    EmptyPrefix(p0);
    Regroup(p0, p1, p2, p3, CloseLine(dash));
    assert es == [es[0], es[1], es[2], es[3]];
    LayoutOfFour(dash, es[0], es[1], es[2], es[3]);
  }

  lemma Regroup(p0: Bytes, p1: Bytes, p2: Bytes, p3: Bytes, c: Bytes)
    ensures p0 + p1 + p2 + p3 + c == p0 + (p1 + (p2 + (p3 + c)))
  {
  }

  lemma EmptyPrefix(s: Bytes)
    ensures [] + s == s
  {
  }

  lemma CloseLineBytes(boundary: string)
    ensures Utf8("--" + boundary + "--\r\n") == CloseLine(DashBoundary(boundary))
  {
    LiteralBytes();
    Utf8Append("--" + boundary, "--\r\n");
  }

  // ------------------------------------------------------------- Reader

  /** `pat` occurs in `s` at position `j`. */
  predicate OccursAt(pat: Bytes, s: Bytes, j: nat) {
    j + |pat| <= |s| && s[j..j + |pat|] == pat
  }

  /** The first position at or after `from` where `pat` occurs in `s`. */
  function FindFrom(pat: Bytes, s: Bytes, from: nat): (r: Option<nat>)
    decreases |s| - from
    ensures r.Some? ==> from <= r.value && OccursAt(pat, s, r.value)
    ensures r.Some? ==> forall j :: from <= j < r.value ==> !OccursAt(pat, s, j)
    ensures r.None? ==> forall j :: from <= j ==> !OccursAt(pat, s, j)
  {
    if from + |pat| > |s| then None
    else if s[from..from + |pat|] == pat then Some(from)
    else FindFrom(pat, s, from + 1)
  }

  /** `pat` does not occur in `x + pat` before the copy appended at its end. */
  predicate FreeOf(x: Bytes, pat: Bytes) {
    forall j :: 0 <= j < |x| ==> !OccursAt(pat, x + pat, j)
  }

  /** Searching `x + pat + y` finds the `pat` right after `x` when `x` is free of it. */
  lemma FirstOccurrence(pat: Bytes, x: Bytes, y: Bytes)
    requires FreeOf(x, pat)
    ensures FindFrom(pat, x + pat + y, 0) == Some(|x|)
  {
    var s := x + pat + y;
    assert OccursAt(pat, s, |x|) by {
      assert s[|x|..|x| + |pat|] == pat;
    }
    forall j | 0 <= j < |x| ensures !OccursAt(pat, s, j) {
      assert !OccursAt(pat, x + pat, j);
      assert s[j..j + |pat|] == (x + pat)[j..j + |pat|];
    }
  }

  /**
   * Reads the parts that follow a dash-boundary: CRLF then a body part up to
   * the next delimiter, repeatedly, until a dash-boundary is followed by `--`.
   */
  function SplitParts(delimiter: Bytes, rest: Bytes): Option<seq<Bytes>>
    decreases |rest|
  {
    if |rest| >= 2 && rest[..2] == DoubleDash then Some([])
    else if |rest| >= 2 && rest[..2] == CRLF then
      var after := rest[2..];
      match FindFrom(delimiter, after, 0)
      case None => None
      case Some(i) =>
        match SplitParts(delimiter, after[i + |delimiter|..])
        case None => None
        case Some(tail) => Some([after[..i]] + tail)
    else None
  }

  /** The body parts of a multipart body, or nothing when it is not well-formed. */
  function DecodeForm(boundary: string, body: Bytes): Option<seq<Bytes>> {
    var dash := DashBoundary(boundary);
    if |dash| <= |body| && body[..|dash|] == dash then SplitParts(Delimiter(boundary), body[|dash|..])
    else None
  }

  /** Splits a body part at its first blank line into headers and content. */
  function SplitHeaders(e: Bytes): Option<(Bytes, Bytes)> {
    match FindFrom(BlankLine, e, 0)
    case None => None
    case Some(i) => Some((e[..i], e[i + |BlankLine|..]))
  }

  // ---------------------------------------------------------- Round trip

  /** The body after its first dash-boundary, seen as the reader sees it. */
  function Framed(delimiter: Bytes, es: seq<Bytes>): Bytes {
    if es == [] then DoubleDash + CRLF else CRLF + es[0] + delimiter + Framed(delimiter, es[1..])
  }

  /** The client's part-by-part layout is a dash-boundary followed by the delimiter-separated parts. */
  lemma {:induction false} LayoutIsFramed(dash: Bytes, es: seq<Bytes>)
    ensures Layout(dash, es) == dash + Framed(CRLF + dash, es)
  {
    if es != [] {
      LayoutIsFramed(dash, es[1..]);
      var e, rest := es[0], Framed(CRLF + dash, es[1..]);
      calc {
        Layout(dash, es);
        PartLines(dash, e) + (dash + rest);
        dash + (CRLF + e + (CRLF + dash) + rest);
      }
    }
  }

  /** The reader returns exactly the framed parts when none of them contains the delimiter. */
  lemma {:induction false} SplitFramed(delimiter: Bytes, es: seq<Bytes>)
    requires |delimiter| > 2 && delimiter[..2] == CRLF
    requires forall i :: 0 <= i < |es| ==> FreeOf(es[i], delimiter)
    ensures SplitParts(delimiter, Framed(delimiter, es)) == Some(es)
  {
    if es != [] {
      var tail := Framed(delimiter, es[1..]);
      var rest := Framed(delimiter, es);
      assert rest == CRLF + (es[0] + delimiter + tail);
      assert rest[..2] == CRLF && rest[..2] != DoubleDash;
      var after := rest[2..];
      assert after == es[0] + delimiter + tail;
      FirstOccurrence(delimiter, es[0], tail);
      assert after[|es[0]| + |delimiter|..] == tail;
      assert after[..|es[0]|] == es[0];
      SplitFramed(delimiter, es[1..]);
      assert [es[0]] + es[1..] == es;
    }
  }

  /** Round trip: reading a built body gives back the body part of every part, in order. */
  lemma DecodeFormBody(boundary: string, parts: seq<Part>)
    requires forall i :: 0 <= i < |parts| ==> FreeOf(Encapsulation(parts[i]), Delimiter(boundary))
    ensures DecodeForm(boundary, FormBody(boundary, parts)) == Some(Encapsulations(parts))
  {
    var dash, es := DashBoundary(boundary), Encapsulations(parts);
    LayoutIsFramed(dash, es);
    var body := FormBody(boundary, parts);
    assert body[..|dash|] == dash;
    assert body[|dash|..] == Framed(Delimiter(boundary), es);
    SplitFramed(Delimiter(boundary), es);
  }

  /** A part's headers are recovered apart from its content when they contain no blank line. */
  lemma SplitEncapsulation(p: Part)
    requires FreeOf(Headers(p), BlankLine)
    ensures SplitHeaders(Encapsulation(p)) == Some((Headers(p), Content(p)))
  {
    FirstOccurrence(BlankLine, Headers(p), Content(p));
    var e := Encapsulation(p);
    assert e[..|Headers(p)|] == Headers(p);
    assert e[|Headers(p)| + |BlankLine|..] == Content(p);
  }

  /** Headers made of one line without a carriage return hold no blank line. */
  lemma OneLineFree(a: Bytes)
    requires CR !in a
    ensures FreeOf(a, BlankLine)
  {
    forall j | 0 <= j < |a| ensures !OccursAt(BlankLine, a + BlankLine, j) {
      assert (a + BlankLine)[j] == a[j];
    }
  }

  /** Two header lines without carriage returns, joined by CRLF, hold no blank line (the second line is not empty). */
  lemma TwoLinesFree(a: Bytes, b: Bytes)
    requires CR !in a && CR !in b && b != []
    ensures FreeOf(a + CRLF + b, BlankLine)
  {
    var h := a + CRLF + b;
    forall j | 0 <= j < |h| ensures !OccursAt(BlankLine, h + BlankLine, j) {
      if j < |a| {
        assert (h + BlankLine)[j] == a[j];
      } else if j == |a| {
        assert (h + BlankLine)[j + 2] == b[0];
      } else if j == |a| + 1 {
        assert (h + BlankLine)[j] == 10;
      } else {
        assert (h + BlankLine)[j] == b[j - |a| - 2];
      }
    }
  }

  lemma NoCrInJoin(a: string, b: string)
    requires '\r' !in a && '\r' !in b
    ensures '\r' !in a + b
  {
  }

  /** With no carriage return in its name, file name or media type, a part's headers hold no blank line. */
  lemma HeadersFreeOfBlankLine(p: Part)
    requires '\r' !in p.name
    requires p.File? ==> '\r' !in p.filename && '\r' !in p.mime
    ensures FreeOf(Headers(p), BlankLine)
  {
    var line := DispositionLine(p);
    NoCrInJoin("Content-Disposition: form-data; name=\"", p.name);
    NoCrInJoin("Content-Disposition: form-data; name=\"" + p.name, "\"");
    if p.File? {
      NoCrInJoin("Content-Disposition: form-data; name=\"" + p.name, "\"; filename=\"");
      NoCrInJoin("Content-Disposition: form-data; name=\"" + p.name + "\"; filename=\"", p.filename);
      NoCrInJoin("Content-Disposition: form-data; name=\"" + p.name + "\"; filename=\"" + p.filename, "\"");
    }
    Utf8AsciiByte(line, CR);
    if p.Field? {
      OneLineFree(Utf8(line));
    } else {
      var typeLine := "Content-Type: " + p.mime;
      NoCrInJoin("Content-Type: ", p.mime);
      Utf8AsciiByte(typeLine, CR);
      assert Utf8(typeLine) == Utf8Char(typeLine[0]) + Utf8(typeLine[1..]);
      TwoLinesFree(Utf8(line), Utf8(typeLine));
    }
  }

  // ----------------------------------------------------- Dispatch body

  /**
   * Reading any built body back gives one body part per part, in order, each
   * splitting into that part's headers and content; it needs no part to
   * contain the delimiter and no carriage return in the header values.
   */
  lemma ReadsBackParts(boundary: string, parts: seq<Part>)
    requires forall i :: 0 <= i < |parts| ==> FreeOf(Encapsulation(parts[i]), Delimiter(boundary))
    requires forall i :: 0 <= i < |parts| ==> '\r' !in parts[i].name
    requires forall i :: 0 <= i < |parts| && parts[i].File? ==> '\r' !in parts[i].filename && '\r' !in parts[i].mime
    ensures var decoded := DecodeForm(boundary, FormBody(boundary, parts));
      && decoded.Some? && |decoded.value| == |parts|
      && forall i :: 0 <= i < |parts| ==> SplitHeaders(decoded.value[i]) == Some((Headers(parts[i]), Content(parts[i])))
  {
    DecodeFormBody(boundary, parts);
    forall i | 0 <= i < |parts| ensures SplitHeaders(Encapsulation(parts[i])) == Some((Headers(parts[i]), Content(parts[i]))) {
      HeadersFreeOfBlankLine(parts[i]);
      SplitEncapsulation(parts[i]);
    }
  }

  /**
   * Reading a dispatch body back: exactly four parts, in the order `mode`,
   * `voice`, `tts`, `audio`; the voice field holds the selected voice, the
   * `tts` field holds "1" exactly when server speech is on, and the file part
   * holds the recorded audio bytes unchanged.
   */
  lemma DispatchBodyReadsBack(boundary: string, voice: string, useServerTTS: bool, audio: Bytes)
    requires FreeOf(Encapsulation(Field("mode", DispatchMode())), Delimiter(boundary))
    requires FreeOf(Encapsulation(Field("voice", voice)), Delimiter(boundary))
    requires FreeOf(Encapsulation(Field("tts", if useServerTTS then "1" else "0")), Delimiter(boundary))
    requires FreeOf(Encapsulation(File("audio", "speech.m4a", "audio/mp4", audio)), Delimiter(boundary))
    ensures var decoded := DecodeForm(boundary, FormBody(boundary, DispatchParts(voice, useServerTTS, audio)));
      && decoded.Some? && |decoded.value| == 4
      && SplitHeaders(decoded.value[0]) == Some((Headers(Field("mode", DispatchMode())), Utf8(DispatchMode())))
      && SplitHeaders(decoded.value[1]) == Some((Headers(Field("voice", voice)), Utf8(voice)))
      && SplitHeaders(decoded.value[2]) == Some((Headers(Field("tts", if useServerTTS then "1" else "0")), Utf8(if useServerTTS then "1" else "0")))
      && SplitHeaders(decoded.value[3]) == Some((Headers(File("audio", "speech.m4a", "audio/mp4", audio)), audio))
  {
    DispatchNamesHaveNoCr();
    assert DispatchParts(voice, useServerTTS, audio) == [Field("mode", DispatchMode()), Field("voice", voice),
      Field("tts", if useServerTTS then "1" else "0"), File("audio", "speech.m4a", "audio/mp4", audio)];
    FourReadBack(boundary, Field("mode", DispatchMode()), Field("voice", voice),
      Field("tts", if useServerTTS then "1" else "0"), File("audio", "speech.m4a", "audio/mp4", audio));
  }

  lemma DispatchNamesHaveNoCr()
    ensures '\r' !in "mode" && '\r' !in "voice" && '\r' !in "tts" && '\r' !in "audio"
    ensures '\r' !in "speech.m4a" && '\r' !in "audio/mp4"
  {
  }

  lemma FourReadBack(boundary: string, q0: Part, q1: Part, q2: Part, q3: Part)
    requires FreeOf(Encapsulation(q0), Delimiter(boundary)) && FreeOf(Encapsulation(q1), Delimiter(boundary))
    requires FreeOf(Encapsulation(q2), Delimiter(boundary)) && FreeOf(Encapsulation(q3), Delimiter(boundary))
    requires '\r' !in q0.name && '\r' !in q1.name && '\r' !in q2.name && '\r' !in q3.name
    requires q3.File? ==> '\r' !in q3.filename && '\r' !in q3.mime
    requires q0.Field? && q1.Field? && q2.Field?
    ensures var decoded := DecodeForm(boundary, FormBody(boundary, [q0, q1, q2, q3]));
      && decoded.Some? && |decoded.value| == 4
      && SplitHeaders(decoded.value[0]) == Some((Headers(q0), Content(q0)))
      && SplitHeaders(decoded.value[1]) == Some((Headers(q1), Content(q1)))
      && SplitHeaders(decoded.value[2]) == Some((Headers(q2), Content(q2)))
      && SplitHeaders(decoded.value[3]) == Some((Headers(q3), Content(q3)))
  {
    var qs := [q0, q1, q2, q3];
    assert forall i :: 0 <= i < 4 ==> qs[i] in {q0, q1, q2, q3};
    ReadsBackParts(boundary, qs);
  }

  /** `c` is a prefix of `x`. */
  predicate StartsWith(x: Bytes, c: Bytes) {
    |c| <= |x| && x[..|c|] == c
  }

  /** `c` is a suffix of `x`. */
  predicate EndsWith(x: Bytes, c: Bytes) {
    |c| <= |x| && x[|x| - |c|..] == c
  }

  /** The body opens with the first part's dash-boundary line. */
  lemma FormBodyOpens(boundary: string, parts: seq<Part>)
    requires parts != []
    ensures StartsWith(FormBody(boundary, parts), DashBoundary(boundary) + CRLF)
  {
    LayoutOpens(DashBoundary(boundary), Encapsulations(parts));
  }

  /** The body ends with the close-delimiter line `--boundary--`, whatever the parts. */
  lemma FormBodyCloses(boundary: string, parts: seq<Part>)
    ensures EndsWith(FormBody(boundary, parts), CloseLine(DashBoundary(boundary)))
  {
    LayoutEndsWithClose(DashBoundary(boundary), Encapsulations(parts));
  }

  /** A non-empty layout opens with the dash-boundary line of its first part. */
  lemma LayoutOpens(dash: Bytes, es: seq<Bytes>)
    requires es != []
    ensures StartsWith(Layout(dash, es), dash + CRLF)
  {
    var first := PartLines(dash, es[0]);
    assert Layout(dash, es) == first + Layout(dash, es[1..]);
    assert first == (dash + CRLF) + (es[0] + CRLF);
    PrefixOfAppend(dash + CRLF, es[0] + CRLF, Layout(dash, es[1..]));
  }

  lemma PrefixOfAppend(a: Bytes, b: Bytes, c: Bytes)
    ensures (a + b + c)[..|a|] == a
  {
  }

  /** Every layout ends with the close line. */
  lemma {:induction false} LayoutEndsWithClose(dash: Bytes, es: seq<Bytes>)
    ensures EndsWith(Layout(dash, es), CloseLine(dash))
  {
    if es != [] {
      LayoutEndsWithClose(dash, es[1..]);
      EndsWithAppend(PartLines(dash, es[0]), Layout(dash, es[1..]), CloseLine(dash));
    }
  }

  lemma EndsWithAppend(x: Bytes, y: Bytes, c: Bytes)
    requires EndsWith(y, c)
    ensures EndsWith(x + y, c)
  {
    assert (x + y)[|x + y| - |c|..] == y[|y| - |c|..];
  }

}
