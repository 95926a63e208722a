/** The chamber camera's wire format: authentication payload and framed JPEG stream. */
module CameraWire {
  import opened Options

  type Byte = i: int | 0 <= i < 256

  const AUTH_MAGIC: int := 0x40
  const AUTH_COMMAND: int := 0x3000
  const AUTH_LENGTH: nat := 80
  const FIELD_LENGTH: nat := 32
  const HEADER_LENGTH: nat := 16
  const MAX_PAYLOAD: nat := 10 * 1024 * 1024

  /** The little-endian word at offset i. */
  function Word(b: seq<Byte>, i: nat): nat
    requires i + 4 <= |b|
  {
    b[i] as int + 0x100 * b[i + 1] as int + 0x1_0000 * b[i + 2] as int + 0x100_0000 * b[i + 3] as int
  }

  predicate IsJpeg(b: seq<Byte>) {
    |b| >= 4 && b[0] == 0xFF && b[1] == 0xD8 && b[|b| - 2] == 0xFF && b[|b| - 1] == 0xD9
  }

  datatype Frame = Frame(header: seq<Byte>, jpeg: seq<Byte>)

  /** What readFrame hands out. */
  predicate IsFrame(f: Frame) {
    |f.header| == HEADER_LENGTH && Word(f.header, 0) == |f.jpeg| <= MAX_PAYLOAD && IsJpeg(f.jpeg)
  }

  function Encode(f: Frame): seq<Byte> { f.header + f.jpeg }

  datatype ReadError = NoHeader | BadLength | NoPayload | NotJpeg

  datatype Result = Read(frame: Frame) | Failed(error: ReadError)

  /** The result of reading one frame and what the reader has left. */
  function Parse(s: seq<Byte>): (Result, seq<Byte>) {
    if |s| < HEADER_LENGTH then (Failed(NoHeader), [])
    else
      var n := Word(s, 0);
      var rest := s[HEADER_LENGTH..];
      if n == 0 || n > MAX_PAYLOAD then (Failed(BadLength), rest)
      else if |rest| < n then (Failed(NoPayload), [])
      else if !IsJpeg(rest[..n]) then (Failed(NotJpeg), rest[n..])
      else (Read(Frame(s[..HEADER_LENGTH], rest[..n])), rest[n..])
  }

  /** A buffered reader over the bytes still to come. */
  class Reader {
    var rest: seq<Byte>

    constructor (s: seq<Byte>)
      ensures rest == s
    {
      rest := s;
    }

    /** Reads exactly n bytes, or consumes what there is and fails. */
    method ReadFull(n: nat) returns (r: Option<seq<Byte>>)
      modifies this
      ensures r == if |old(rest)| < n then None else Some(old(rest)[..n])
      ensures rest == if |old(rest)| < n then [] else old(rest)[n..]
    {
      if |rest| < n {
        rest := [];
        return None;
      }
      r := Some(rest[..n]);
      rest := rest[n..];
    }

    method ReadFrame() returns (r: Result)
      modifies this
      ensures (r, rest) == Parse(old(rest))
    {
      var header := ReadFull(HEADER_LENGTH);
      if header.None? {
        return Failed(NoHeader);
      }
      var length := Word(header.value, 0);
      if length == 0 || length > MAX_PAYLOAD {
        return Failed(BadLength);
      }
      var jpeg := ReadFull(length);
      if jpeg.None? {
        return Failed(NoPayload);
      }
      if !IsJpeg(jpeg.value) {
        return Failed(NotJpeg);
      }
      r := Read(Frame(header.value, jpeg.value));
    }
  }

  lemma ReadBack(f: Frame, rest: seq<Byte>)
    requires IsFrame(f)
    ensures Parse(Encode(f) + rest) == (Read(f), rest)
  {
    var s := Encode(f) + rest;
    assert s[..HEADER_LENGTH] == f.header;
    assert s[HEADER_LENGTH..] == f.jpeg + rest;
    assert (f.jpeg + rest)[..|f.jpeg|] == f.jpeg && (f.jpeg + rest)[|f.jpeg|..] == rest;
  }

  lemma WriteBack(s: seq<Byte>)
    requires Parse(s).0.Read?
    ensures IsFrame(Parse(s).0.frame)
    ensures Encode(Parse(s).0.frame) + Parse(s).1 == s
  {
  }

  /** Reading succeeds exactly on the streams that begin with an encoded frame, and that frame is the only one. */
  lemma ReadsIff(s: seq<Byte>, f: Frame, rest: seq<Byte>)
    ensures Parse(s) == (Read(f), rest) <==> IsFrame(f) && s == Encode(f) + rest
  {
    if IsFrame(f) && s == Encode(f) + rest {
      ReadBack(f, rest);
    }
    if Parse(s) == (Read(f), rest) {
      WriteBack(s);
    }
  }

  /** A frame that is cut off is never read. */
  lemma PartIsNotRead(f: Frame, part: seq<Byte>)
    requires IsFrame(f) && part < Encode(f)
    ensures Parse(part) == (Failed(if |part| < HEADER_LENGTH then NoHeader else NoPayload), [])
  {
    if |part| >= HEADER_LENGTH {
      assert forall i :: 0 <= i < HEADER_LENGTH ==> part[i] == Encode(f)[i] == f.header[i];
    }
  }

  /** The length a stream's header announces. */
  function Announced(s: seq<Byte>): int
    requires |s| >= 16
  {
    s[0] as int + 256 * s[1] as int + 65536 * s[2] as int + 16777216 * s[3] as int
  }

  /**
   What reading does with every stream, byte by byte: the first fault met, and how much of the stream is used up by it.
   */
  lemma ReadingIs(s: seq<Byte>)
    ensures Parse(s) ==
            if |s| < 16 then (Failed(NoHeader), [])
            else if !(0 < Announced(s) <= 10485760) then (Failed(BadLength), s[16..])
            else if |s| < 16 + Announced(s) then (Failed(NoPayload), [])
            else
              var end := 16 + Announced(s);
              if Announced(s) >= 4 && s[16] == 0xFF && s[17] == 0xD8 && s[end - 2] == 0xFF && s[end - 1] == 0xD9
              then (Read(Frame(s[..16], s[16..end])), s[end..])
              else (Failed(NotJpeg), s[end..])
  {
    if |s| >= 16 && 0 < Announced(s) && |s| >= 16 + Announced(s) {
      assert s[16..][..Announced(s)] == s[16..16 + Announced(s)];
      assert s[16..][Announced(s)..] == s[16 + Announced(s)..];
    }
  }

  function EncodeAll(fs: seq<Frame>): seq<Byte> {
    if fs == [] then [] else EncodeAll(fs[..|fs| - 1]) + Encode(fs[|fs| - 1])
  }

  /** n frames read one after the other, and what is left; None if one of them fails. */
  function ParseMany(s: seq<Byte>, n: nat): Option<(seq<Frame>, seq<Byte>)> {
    if n == 0 then Some(([], s))
    else
      match ParseMany(s, n - 1)
      case None => None
      case Some((fs, rest)) =>
        var (r, rest') := Parse(rest);
        if r.Read? then Some((fs + [r.frame], rest')) else None
  }

  lemma OneMoreFrame(s: seq<Byte>, n: nat, fs: seq<Frame>, f: Frame, rest: seq<Byte>)
    requires IsFrame(f) && ParseMany(s, n) == Some((fs, Encode(f) + rest))
    ensures ParseMany(s, n + 1) == Some((fs + [f], rest))
  {
    ReadBack(f, rest);
  }

  /** Any number of frames followed by anything is read back. */
  lemma {:induction false} StreamReadsBack(fs: seq<Frame>, rest: seq<Byte>)
    requires forall i :: 0 <= i < |fs| ==> IsFrame(fs[i])
    ensures ParseMany(EncodeAll(fs) + rest, |fs|) == Some((fs, rest))
  {
    var s := EncodeAll(fs) + rest;
    if fs == [] {
      assert s == rest;
    } else {
      var last := |fs| - 1;
      var front, f := fs[..last], fs[last];
      assert s == EncodeAll(front) + (Encode(f) + rest);
      StreamReadsBack(front, Encode(f) + rest);
      OneMoreFrame(s, last, front, f, rest);
      assert front + [f] == fs;
    }
  }

  // Authentication.

  function Zeros(n: nat): seq<Byte> { seq(n, _ => 0) }

  /** A value cut or padded to a field. */
  function Field(value: seq<Byte>): (r: seq<Byte>)
    ensures |r| == FIELD_LENGTH
  {
    if |value| >= FIELD_LENGTH then value[..FIELD_LENGTH] else value + Zeros(FIELD_LENGTH - |value|)
  }

  function AuthPayload(username: seq<Byte>, accessCode: seq<Byte>): (r: seq<Byte>)
    ensures |r| == AUTH_LENGTH
  {
    [0x40, 0, 0, 0, 0, 0x30, 0, 0] + Zeros(8) + Field(username) + Field(accessCode)
  }

  predicate ValidAuthHeader(payload: seq<Byte>) {
    |payload| >= 8 && Word(payload, 0) == AUTH_MAGIC && Word(payload, 4) == AUTH_COMMAND
  }

  /** copy(p[at:at+FIELD_LENGTH], value) */
  method CopyField(p: array<Byte>, at: nat, value: seq<Byte>)
    requires at + FIELD_LENGTH <= p.Length && (forall i :: at <= i < at + FIELD_LENGTH ==> p[i] == 0)
    modifies p
    ensures p[..] == old(p[..at]) + Field(value) + old(p[at + FIELD_LENGTH..])
  {
    var n := if |value| < FIELD_LENGTH then |value| else FIELD_LENGTH;
    for i := 0 to n
      invariant forall k :: 0 <= k < i ==> p[at + k] == value[k]
      invariant forall k :: at + i <= k < at + FIELD_LENGTH ==> p[k] == 0
      invariant forall k :: 0 <= k < p.Length && (k < at || k >= at + FIELD_LENGTH) ==> p[k] == old(p[k])
    {
      p[at + i] := value[i];
    }
    forall k | 0 <= k < FIELD_LENGTH ensures p[at..at + FIELD_LENGTH][k] == Field(value)[k] {
      assert k < n ==> p[at + k] == value[k];
    }
    assert p[at..at + FIELD_LENGTH] == Field(value);
    assert p[..] == p[..at] + p[at..at + FIELD_LENGTH] + p[at + FIELD_LENGTH..];
  }

  method MakeAuthPayload(username: seq<Byte>, accessCode: seq<Byte>) returns (p: array<Byte>)
    ensures fresh(p) && p[..] == AuthPayload(username, accessCode)
  {
    p := new Byte[AUTH_LENGTH](_ => 0);
    p[0] := 0x40;
    p[5] := 0x30;
    assert p[..16] == [0x40, 0, 0, 0, 0, 0x30, 0, 0] + Zeros(8);
    CopyField(p, 16, username);
    assert p[..48] == [0x40, 0, 0, 0, 0, 0x30, 0, 0] + Zeros(8) + Field(username);
    CopyField(p, 48, accessCode);
  }

  /** Whether a field is exactly the value followed by NULs. */
  method NulPaddedEqual(field: seq<Byte>, value: seq<Byte>) returns (equal: bool)
    ensures equal <==> |value| <= |field| && field == value + Zeros(|field| - |value|)
  {
    if |value| > |field| {
      return false;
    }
    if field[..|value|] != value {
      assert (value + Zeros(|field| - |value|))[..|value|] == value;
      return false;
    }
    for i := |value| to |field|
      invariant forall k :: |value| <= k < i ==> field[k] == 0
    {
      if field[i] != 0 {
        assert (value + Zeros(|field| - |value|))[i] == 0;
        return false;
      }
    }
    assert field == field[..|value|] + field[|value|..];
    return true;
  }

  predicate Matches(field: seq<Byte>, value: seq<Byte>) {
    |value| <= |field| && field == value + Zeros(|field| - |value|)
  }

  function Trimmed(v: seq<Byte>): seq<Byte> {
    if v != [] && v[|v| - 1] == 0 then Trimmed(v[..|v| - 1]) else v
  }

  lemma {:induction false} TrimPadded(v: seq<Byte>, n: nat)
    ensures Trimmed(v + Zeros(n)) == Trimmed(v)
  {
    if n == 0 {
      assert v + Zeros(0) == v;
    } else {
      assert (v + Zeros(n))[..|v| + n - 1] == v + Zeros(n - 1);
      TrimPadded(v, n - 1);
    }
  }

  lemma {:induction false} PadTrimmed(v: seq<Byte>)
    ensures |Trimmed(v)| <= |v| && v == Trimmed(v) + Zeros(|v| - |Trimmed(v)|)
    decreases |v|
  {
    if v != [] && v[|v| - 1] == 0 {
      PadTrimmed(v[..|v| - 1]);
      assert Zeros(|v| - |Trimmed(v)|) == Zeros(|v| - 1 - |Trimmed(v)|) + [0];
      assert v == v[..|v| - 1] + [0];
    }
  }

  lemma SameTrimmed(v: seq<Byte>, u: seq<Byte>)
    requires |v| == |u|
    ensures Trimmed(v) == Trimmed(u) <==> v == u
  {
    PadTrimmed(v);
    PadTrimmed(u);
  }

  lemma PaddedMatchesIff(field: seq<Byte>, value: seq<Byte>)
    requires |field| == FIELD_LENGTH
    ensures Matches(field, value) <==> |value| <= FIELD_LENGTH && Trimmed(value) == Trimmed(field)
  {
    if |value| <= FIELD_LENGTH {
      TrimPadded(value, FIELD_LENGTH - |value|);
      SameTrimmed(field, value + Zeros(FIELD_LENGTH - |value|));
    }
  }

  /** What a field keeps of a value: its first bytes, without the NULs at their end. */
  function Kept(value: seq<Byte>): seq<Byte> {
    Trimmed(if |value| > FIELD_LENGTH then value[..FIELD_LENGTH] else value)
  }

  lemma FieldKeeps(value: seq<Byte>)
    ensures Trimmed(Field(value)) == Kept(value)
  {
    if |value| < FIELD_LENGTH {
      TrimPadded(value, FIELD_LENGTH - |value|);
    } else {
      assert value[..FIELD_LENGTH] == if |value| > FIELD_LENGTH then value[..FIELD_LENGTH] else value;
    }
  }

  lemma FieldMatchesIff(sent: seq<Byte>, value: seq<Byte>)
    ensures Matches(Field(sent), value) <==> |value| <= FIELD_LENGTH && Trimmed(value) == Kept(sent)
  {
    PaddedMatchesIff(Field(sent), value);
    FieldKeeps(sent);
  }

  lemma PayloadFields(username: seq<Byte>, accessCode: seq<Byte>)
    ensures ValidAuthHeader(AuthPayload(username, accessCode))
    ensures AuthPayload(username, accessCode)[16..48] == Field(username)
    ensures AuthPayload(username, accessCode)[48..80] == Field(accessCode)
  {
    var p := AuthPayload(username, accessCode);
    assert p[0] == 0x40 && p[1] == p[2] == p[3] == p[4] == 0 && p[5] == 0x30 && p[6] == p[7] == 0;
  }

  /** Whether the credentials of a received payload are those of a configured printer. */
  predicate Authenticates(payload: seq<Byte>, username: seq<Byte>, accessCode: seq<Byte>)
    requires |payload| == AUTH_LENGTH
  {
    ValidAuthHeader(payload) && Matches(payload[16..48], username) && Matches(payload[48..80], accessCode)
  }

  /**
   The proxy's own payload, for credentials of any length, is admitted as a configured printer exactly when the
   configured ones fit their fields and agree with what the fields keep of those sent, up to trailing NULs.
   */
  lemma OwnPayloadAdmittedIff(username: seq<Byte>, accessCode: seq<Byte>, user: seq<Byte>, code: seq<Byte>)
    ensures Authenticates(AuthPayload(username, accessCode), user, code)
            <==> |user| <= FIELD_LENGTH && Trimmed(user) == Kept(username)
                 && |code| <= FIELD_LENGTH && Trimmed(code) == Kept(accessCode)
  {
    PayloadFields(username, accessCode);
    FieldMatchesIff(username, user);
    FieldMatchesIff(accessCode, code);
  }

  /** A printer's own credentials are admitted exactly when both fit: a longer one does not even match itself. */
  lemma OwnCredentialsAdmittedIff(username: seq<Byte>, accessCode: seq<Byte>)
    ensures Authenticates(AuthPayload(username, accessCode), username, accessCode)
            <==> |username| <= FIELD_LENGTH && |accessCode| <= FIELD_LENGTH
  {
    OwnPayloadAdmittedIff(username, accessCode, username, accessCode);
  }
}
