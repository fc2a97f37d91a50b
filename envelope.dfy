/** The binary mail envelope that wraps an HTML survey (`process_survey_file`
    in survey.py): 18 unknown bytes, a one-byte sender length and the
    sender, 13 unknown bytes, a one-byte title length and the title, then a
    four-byte big-endian body length and the body. The three texts are
    UTF-16-BE; decoding is a parameter of the model. Reads follow Python's
    `f.read(n)`: at the end of the data they return fewer bytes. */
module Envelope {
  import opened Errors
  import opened PyStr

  newtype byte = x: int | 0 <= x < 256

  /** A text decoder, `bytes.decode('utf_16_be')`: `None` when the bytes
      are not valid text. */
  type Decoder = seq<byte> -> Option<string>

  const SenderOffset: nat := 18
  const TitleGap: nat := 13
  const BodyLengthBytes: nat := 4

  datatype Mail = Mail(sender: string, title: string, body: string)

  /** `f.read(n)` at offset `pos`: the bytes read and the new offset. */
  function Read(bs: seq<byte>, pos: nat, n: nat): (r: (seq<byte>, nat))
    requires pos <= |bs|
    ensures pos <= r.1 <= |bs|
    ensures |r.0| == r.1 - pos <= n
  {
    var end := if pos + n <= |bs| then pos + n else |bs|;
    (bs[pos..end], end)
  }

  /** `int(b.encode('hex'), 16)`: the bytes as a big-endian number. */
  function BigEndian(b: seq<byte>): nat
  {
    BigEndianFrom(0, b)
  }

  /** The big-endian value of `b` read after digits worth `acc`. */
  function BigEndianFrom(acc: nat, b: seq<byte>): nat
    decreases |b|
  {
    if b == [] then acc else BigEndianFrom(acc * 256 + b[0] as nat, b[1..])
  }

  lemma {:induction false} BigEndianSingle(x: byte)
    ensures BigEndian([x]) == x as nat
  {
    assert [x][1..] == [];
    assert BigEndianFrom(0, [x]) == BigEndianFrom(x as nat, []);
  }

  lemma {:induction false} BigEndianSnoc(acc: nat, b: seq<byte>, x: byte)
    ensures BigEndianFrom(acc, b + [x]) == BigEndianFrom(acc, b) * 256 + x as nat
    decreases |b|
  {
    if b != [] {
      assert (b + [x])[0] == b[0] && (b + [x])[1..] == b[1..] + [x];
      BigEndianSnoc(acc * 256 + b[0] as nat, b[1..], x);
    }
  }

  function Power256(k: nat): (p: nat)
    ensures p >= 1
  {
    if k == 0 then 1 else 256 * Power256(k - 1)
  }

  /** The `k`-byte big-endian encoding of `n`. */
  function ToBigEndian(n: nat, k: nat): (b: seq<byte>)
    requires n < Power256(k)
    ensures |b| == k
  {
    if k == 0 then [] else ToBigEndian(n / 256, k - 1) + [(n % 256) as byte]
  }

  lemma {:induction false} BigEndianRoundTrip(n: nat, k: nat)
    requires n < Power256(k)
    ensures BigEndian(ToBigEndian(n, k)) == n
  {
    if k > 0 {
      BigEndianRoundTrip(n / 256, k - 1);
      BigEndianSnoc(0, ToBigEndian(n / 256, k - 1), (n % 256) as byte);
    }
  }

  /** A length field of `n` bytes: reading nothing is a ValueError (`int('',
      16)`); fewer bytes than asked are read as a shorter number. */
  function ReadLength(bs: seq<byte>, pos: nat, n: nat): (r: Result<(nat, nat)>)
    requires pos <= |bs|
    ensures r.Failure? <==> pos == |bs| || n == 0
    ensures r.Failure? ==> r.error == ValueError
    ensures r.Success? ==> pos < r.value.1 <= |bs| && r.value.0 == BigEndian(bs[pos..r.value.1])
  {
    var chunk := Read(bs, pos, n);
    if chunk.0 == [] then Failure(ValueError) else Success((BigEndian(chunk.0), chunk.1))
  }

  /** A length-prefixed text field: the length, then that many bytes (fewer
      at the end of the data), decoded. */
  function ReadText(bs: seq<byte>, pos: nat, lengthBytes: nat, decode: Decoder): (r: Result<(string, nat)>)
    requires pos <= |bs|
    ensures r.Success? ==> pos < r.value.1 <= |bs|
  {
    var size := ReadLength(bs, pos, lengthBytes);
    if size.Failure? then Failure(size.error)
    else
      var chunk := Read(bs, size.value.1, size.value.0);
      var text := decode(chunk.0);
      if text.None? then Failure(DecodeError) else Success((text.value, chunk.1))
  }

  /** The envelope of a mail file. */
  function ParseMail(bs: seq<byte>, decode: Decoder): (r: Result<Mail>)
    ensures |bs| <= SenderOffset ==> r == Failure(ValueError)
  {
    var sender := ReadText(bs, Read(bs, 0, SenderOffset).1, 1, decode);
    if sender.Failure? then Failure(sender.error)
    else
      var title := ReadText(bs, Read(bs, sender.value.1, TitleGap).1, 1, decode);
      if title.Failure? then Failure(title.error)
      else
        var body := ReadText(bs, title.value.1, BodyLengthBytes, decode);
        if body.Failure? then Failure(body.error)
        else Success(Mail(sender.value.0, title.value.0, body.value.0))
  }

  /** The bytes of a mail file with the given fields and anything after the
      body. */
  function BuildMail(prefix: seq<byte>, sender: seq<byte>, gap: seq<byte>, title: seq<byte>,
                     body: seq<byte>, trailer: seq<byte>): seq<byte>
    requires |sender| < 256 && |title| < 256 && |body| < Power256(BodyLengthBytes)
  {
    prefix + [|sender| as byte] + sender + gap + [|title| as byte] + title
    + ToBigEndian(|body|, BodyLengthBytes) + body + trailer
  }

  lemma {:induction false} ReadAt(pre: seq<byte>, chunk: seq<byte>, post: seq<byte>)
    ensures Read(pre + chunk + post, |pre|, |chunk|) == (chunk, |pre| + |chunk|)
  {
    assert (pre + chunk + post)[|pre|..|pre| + |chunk|] == chunk;
  }

  lemma {:induction false} ReadTextAt(pre: seq<byte>, len: seq<byte>, text: seq<byte>, post: seq<byte>, decode: Decoder, s: string)
    requires len != [] && BigEndian(len) == |text| && decode(text) == Some(s)
    ensures ReadText(pre + len + text + post, |pre|, |len|, decode) == Success((s, |pre| + |len| + |text|))
  {
    var bs := pre + len + text + post;
    var start := |pre| + |len|;
    assert ReadLength(bs, |pre|, |len|) == Success((|text|, start)) by {
      assert bs == pre + len + (text + post);
      ReadAt(pre, len, text + post);
    }
    assert Read(bs, start, |text|) == (text, start + |text|) by {
      assert bs == (pre + len) + text + post;
      ReadAt(pre + len, text, post);
    }
  }

  /** How ParseMail combines its three field reads. */
  lemma {:induction false} ParseMailOfFields(bs: seq<byte>, decode: Decoder, p2: nat, p4: nat, e: nat,
                                             s: string, t: string, b: string)
    requires SenderOffset <= |bs| && p2 + TitleGap <= |bs|
    requires ReadText(bs, SenderOffset, 1, decode) == Success((s, p2))
    requires ReadText(bs, p2 + TitleGap, 1, decode) == Success((t, p4))
    requires ReadText(bs, p4, BodyLengthBytes, decode) == Success((b, e))
    ensures ParseMail(bs, decode) == Success(Mail(s, t, b))
  {
    assert Read(bs, 0, SenderOffset).1 == SenderOffset;
    assert Read(bs, p2, TitleGap).1 == p2 + TitleGap;
  }

  lemma {:induction false} SenderField(prefix: seq<byte>, sender: seq<byte>, gap: seq<byte>, title: seq<byte>,
                                       body: seq<byte>, trailer: seq<byte>, decode: Decoder, s: string)
    requires |sender| < 256 && |title| < 256 && |body| < Power256(BodyLengthBytes)
    requires decode(sender) == Some(s)
    ensures ReadText(BuildMail(prefix, sender, gap, title, body, trailer), |prefix|, 1, decode)
         == Success((s, |prefix| + 1 + |sender|))
  {
    var senderLen: seq<byte> := [|sender| as byte];
    var tail := gap + [|title| as byte] + title + ToBigEndian(|body|, BodyLengthBytes) + body + trailer;
    BigEndianSingle(|sender| as byte);
    assert BuildMail(prefix, sender, gap, title, body, trailer) == prefix + senderLen + sender + tail;
    ReadTextAt(prefix, senderLen, sender, tail, decode, s);
  }

  lemma {:induction false} TitleField(prefix: seq<byte>, sender: seq<byte>, gap: seq<byte>, title: seq<byte>,
                                      body: seq<byte>, trailer: seq<byte>, decode: Decoder, t: string)
    requires |sender| < 256 && |title| < 256 && |body| < Power256(BodyLengthBytes)
    requires decode(title) == Some(t)
    ensures var p := |prefix| + 1 + |sender| + |gap|;
      ReadText(BuildMail(prefix, sender, gap, title, body, trailer), p, 1, decode)
         == Success((t, p + 1 + |title|))
  {
    var head := prefix + [|sender| as byte] + sender + gap;
    var titleLen: seq<byte> := [|title| as byte];
    var tail := ToBigEndian(|body|, BodyLengthBytes) + body + trailer;
    BigEndianSingle(|title| as byte);
    assert BuildMail(prefix, sender, gap, title, body, trailer) == head + titleLen + title + tail;
    ReadTextAt(head, titleLen, title, tail, decode, t);
  }

  lemma {:induction false} BodyField(prefix: seq<byte>, sender: seq<byte>, gap: seq<byte>, title: seq<byte>,
                                     body: seq<byte>, trailer: seq<byte>, decode: Decoder, b: string)
    requires |sender| < 256 && |title| < 256 && |body| < Power256(BodyLengthBytes)
    requires decode(body) == Some(b)
    ensures var p := |prefix| + 1 + |sender| + |gap| + 1 + |title|;
      ReadText(BuildMail(prefix, sender, gap, title, body, trailer), p, BodyLengthBytes, decode)
         == Success((b, p + BodyLengthBytes + |body|))
  {
    var head := prefix + [|sender| as byte] + sender + gap + [|title| as byte] + title;
    var bodyLen := ToBigEndian(|body|, BodyLengthBytes);
    BigEndianRoundTrip(|body|, BodyLengthBytes);
    assert BuildMail(prefix, sender, gap, title, body, trailer) == head + bodyLen + body + trailer;
    ReadTextAt(head, bodyLen, body, trailer, decode, b);
  }

  /** The envelope reader recovers every field of a mail it frames, and
      ignores what follows the body. */
  lemma {:induction false} MailRoundTrip(prefix: seq<byte>, sender: seq<byte>, gap: seq<byte>, title: seq<byte>,
                      body: seq<byte>, trailer: seq<byte>, decode: Decoder, s: string, t: string, b: string)
    requires |prefix| == SenderOffset && |gap| == TitleGap
    requires |sender| < 256 && |title| < 256 && |body| < Power256(BodyLengthBytes)
    requires decode(sender) == Some(s) && decode(title) == Some(t) && decode(body) == Some(b)
    ensures ParseMail(BuildMail(prefix, sender, gap, title, body, trailer), decode) == Success(Mail(s, t, b))
  {
    var bs := BuildMail(prefix, sender, gap, title, body, trailer);
    SenderField(prefix, sender, gap, title, body, trailer, decode, s);
    TitleField(prefix, sender, gap, title, body, trailer, decode, t);
    BodyField(prefix, sender, gap, title, body, trailer, decode, b);
    var p2 := SenderOffset + 1 + |sender|;
    var p4 := p2 + TitleGap + 1 + |title|;
    ParseMailOfFields(bs, decode, p2, p4, p4 + BodyLengthBytes + |body|, s, t, b);
  }

  /** `re.match('^System Survey', title)` */
  predicate IsSystemSurvey(title: string) {
    StartsWith(title, "System Survey")
  }
}
