/** The copier of diagnostic messages into a fixed buffer. */
module Diagnostics {
  import opened Common

  newtype byte = x: int | 0 <= x < 256

  const SIZE: nat := 256
  const QUESTION_MARK: byte := 0x3F

  /** The characters before the terminating NUL. */
  type Text = s: seq<byte> | forall k :: 0 <= k < |s| ==> s[k] != 0 witness []

  // ------------------------------------------------ UTF-8 as RFC 3629 defines it

  predicate IsTail(b: byte) {
    0x80 <= b <= 0xBF
  }

  /** One character, by the ABNF of section 4 of RFC 3629. */
  predicate IsCharacter(s: seq<byte>) {
    match |s|
    case 1 => s[0] <= 0x7F
    case 2 => 0xC2 <= s[0] <= 0xDF && IsTail(s[1])
    case 3 =>
      || (s[0] == 0xE0 && 0xA0 <= s[1] <= 0xBF && IsTail(s[2]))
      || (0xE1 <= s[0] <= 0xEC && IsTail(s[1]) && IsTail(s[2]))
      || (s[0] == 0xED && 0x80 <= s[1] <= 0x9F && IsTail(s[2]))
      || (0xEE <= s[0] <= 0xEF && IsTail(s[1]) && IsTail(s[2]))
    case 4 =>
      || (s[0] == 0xF0 && 0x90 <= s[1] <= 0xBF && IsTail(s[2]) && IsTail(s[3]))
      || (0xF1 <= s[0] <= 0xF3 && IsTail(s[1]) && IsTail(s[2]) && IsTail(s[3]))
      || (s[0] == 0xF4 && 0x80 <= s[1] <= 0x8F && IsTail(s[2]) && IsTail(s[3]))
    case _ => false
  }

  /** A sequence of characters. */
  predicate WellFormed(s: seq<byte>) {
    s == [] || exists n :: 0 < n <= |s| && IsCharacter(s[..n]) && WellFormed(s[n..])
  }

  // ------------------------------------------------------------ what is copied

  /** The byte count the lead byte announces, 0 for a byte that cannot lead. */
  function LeadLength(b: byte): nat {
    if b < 0x80 then 1 else if 0xC2 <= b <= 0xDF then 2 else if 0xE0 <= b <= 0xEF then 3
      else if 0xF0 <= b <= 0xF4 then 4 else 0
  }

  /** The size of the character at the front of the text, 0 if there is none. */
  function CharacterLength(s: Text): nat
    requires s != []
  {
    var n := LeadLength(s[0]);
    if 0 < n <= |s| && IsCharacter(s[..n]) then n else 0
  }

  /** The text with unreadable bytes replaced, up to the first character that does not fit. */
  function Copied(s: Text, room: nat): Text
    decreases |s|
  {
    if s == [] || room == 0 then []
    else
      var n := CharacterLength(s);
      if n == 0 then [QUESTION_MARK] + Copied(s[1..], room - 1)
      else if n > room then []
      else s[..n] + Copied(s[n..], room - n)
  }

  /** The copy taken apart at its first character. */
  lemma CopyUnfolds(s: Text, room: nat)
    ensures s == [] || room == 0 ==> Copied(s, room) == []
    ensures s != [] && room > 0 ==>
      var n := CharacterLength(s);
      && n <= |s|
      && (n == 0 ==> Copied(s, room) == [QUESTION_MARK] + Copied(s[1..], room - 1))
      && (n > room ==> Copied(s, room) == [])
      && (0 < n <= room ==> Copied(s, room) == s[..n] + Copied(s[n..], room - n))
  {
  }

  /** The lead byte alone decides how long a character is. */
  lemma LengthIsDetermined(s: seq<byte>, n: nat)
    requires n <= |s| && IsCharacter(s[..n])
    ensures n > 0 && n == LeadLength(s[0])
  {
    assert s[..n][0] == s[0];
  }

  lemma OneMoreCharacter(c: seq<byte>, s: seq<byte>)
    requires IsCharacter(c) && WellFormed(s)
    ensures WellFormed(c + s)
  {
    assert (c + s)[..|c|] == c && (c + s)[|c|..] == s;
  }

  /** The copy fits and is well formed, whatever the input. */
  lemma {:induction false} CopyIsWellFormed(s: Text, room: nat)
    ensures |Copied(s, room)| <= room && WellFormed(Copied(s, room))
    decreases |s|
  {
    if s != [] && room > 0 {
      var n := CharacterLength(s);
      if n == 0 {
        CopyIsWellFormed(s[1..], room - 1);
        OneMoreCharacter([QUESTION_MARK], Copied(s[1..], room - 1));
      } else if n <= room {
        CopyIsWellFormed(s[n..], room - n);
        OneMoreCharacter(s[..n], Copied(s[n..], room - n));
      }
    }
  }

  lemma FirstCharacter(s: Text) returns (n: nat)
    requires WellFormed(s) && s != []
    ensures 0 < n <= |s| && n == CharacterLength(s) && IsCharacter(s[..n]) && WellFormed(s[n..])
  {
    n :| 0 < n <= |s| && IsCharacter(s[..n]) && WellFormed(s[n..]);
    hide WellFormed;
    LengthIsDetermined(s, n);
  }

  /** Well-formed text that fits is copied unchanged. */
  lemma {:induction false} WellFormedIsUnchanged(s: Text, room: nat)
    requires WellFormed(s) && |s| <= room
    ensures Copied(s, room) == s
    decreases |s|
  {
    hide IsCharacter, CharacterLength, WellFormed, Copied;
    CopyUnfolds(s, room);
    if s != [] {
      var n := FirstCharacter(s);
      WellFormedIsUnchanged(s[n..], room - n);
      assert s == s[..n] + s[n..];
    }
  }

  /** Copying a copy changes nothing. */
  lemma CopyingIsIdempotent(s: Text, room: nat)
    ensures Copied(Copied(s, room), room) == Copied(s, room)
  {
    CopyIsWellFormed(s, room);
    WellFormedIsUnchanged(Copied(s, room), room);
  }

  /** The text can be cut at `k`, between characters, and the next one would overflow. */
  ghost predicate CutAt(s: seq<byte>, k: nat, room: nat) {
    k <= |s| && exists n :: 0 < n <= |s| - k && IsCharacter(s[k..][..n]) && k + n > room
  }

  lemma CutLater(s: seq<byte>, n: nat, k: nat, room: nat)
    requires n <= |s| && n <= room && CutAt(s[n..], k, room - n)
    ensures CutAt(s, n + k, room)
  {
    hide IsCharacter;
    var t := s[n..];
    var m :| 0 < m <= |t| - k && IsCharacter(t[k..][..m]) && k + m > room - n;
    assert t[k..] == s[n + k..];
  }

  /** Well-formed text that does not fit is cut before the first character that does not: the
      copy is a prefix, ends between characters, and the next character would overflow. */
  lemma {:induction false} TruncationIsMaximal(s: Text, room: nat)
    requires WellFormed(s) && |s| > room
    ensures var c := Copied(s, room); |c| < |s| && c == s[..|c|] && CutAt(s, |c|, room)
    decreases |s|
  {
    hide IsCharacter, CharacterLength, WellFormed, Copied;
    var n := FirstCharacter(s);
    CopyUnfolds(s, room);
    if room == 0 || n > room {
      assert s[0..] == s && IsCharacter(s[0..][..n]);
    } else {
      TruncationIsMaximal(s[n..], room - n);
      var rest := Copied(s[n..], room - n);
      CutLater(s, n, |rest|, room);
      assert s[..n + |rest|] == s[..n] + s[n..][..|rest|];
    }
  }

  // -------------------------------------------------------------------- the loop

  /** Reading the NUL itself is allowed, reading beyond it is not. */
  function ReadAt(message: Text, k: nat): (b: byte)
    requires k <= |message|
    ensures b == 0 <==> k == |message|
  {
    if k == |message| then 0 else message[k]
  }

  /** The validity test of the loop: continuation bytes are read one by one and never past the
      first that fails. */
  method Measure(message: Text, source: nat) returns (length: nat, valid: bool)
    requires source < |message|
    ensures valid <==> CharacterLength(message[source..]) > 0
    ensures valid ==> length == CharacterLength(message[source..]) && source + length <= |message|
  {
    ghost var s := message[source..];
    var lead := ReadAt(message, source);
    length := LeadLength(lead);
    valid := length != 0;
    var index := 1;
    while valid && index < length
      invariant valid ==> 1 <= index <= length && index <= |s|
      invariant valid ==> forall k :: 1 <= k < index ==> IsTail(s[k])
      invariant !valid ==> length == 0 || length > |s| || exists k :: 1 <= k < length && k < |s| && !IsTail(s[k])
      decreases length - index, valid
    {
      var next := ReadAt(message, source + index);
      assert index < |s| ==> next == s[index];
      valid := next != 0 && 0x80 <= next < 0xC0;
      index := index + 1;
    }
    if valid && length > 2 {
      var second := ReadAt(message, source + 1);
      assert second == s[1];
      valid := !(lead == 0xE0 && second < 0xA0) && !(lead == 0xED && second >= 0xA0)
               && !(lead == 0xF0 && second < 0x90) && !(lead == 0xF4 && second >= 0x90);
    }
    assert length <= |s| ==> forall k :: 0 <= k < length ==> s[..length][k] == s[k];
  }

  /** The inner loop that copies one whole character. */
  method CopyCharacter(buffer: array<byte>, destination: nat, message: Text, source: nat, length: nat)
    requires source + length <= |message| && destination + length < buffer.Length
    modifies buffer
    ensures buffer[..destination + length] == old(buffer[..destination]) + message[source..source + length]
  {
    var index := 0;
    while index < length
      invariant 0 <= index <= length
      invariant buffer[..destination + index] == old(buffer[..destination]) + message[source..source + index]
    {
      buffer[destination + index] := ReadAt(message, source + index);
      assert buffer[..destination + index + 1] == buffer[..destination + index] + [message[source + index]];
      assert message[source..source + index + 1] == message[source..source + index] + [message[source + index]];
      index := index + 1;
    }
  }

  /** `copy_diagnostic`: the buffer holds the copy and its NUL; nothing beyond the message's
      own NUL is read, and nothing beyond the buffer written. */
  method CopyDiagnostic(buffer: array<byte>, message: Text)
    requires buffer.Length == SIZE
    modifies buffer
    ensures var copy := Copied(message, SIZE - 1);
      |copy| < SIZE && buffer[..|copy|] == copy && buffer[|copy|] == 0
  {
    hide CharacterLength, Copied;
    var destination, source := 0, 0;
    assert message[0..] == message;
    while ReadAt(message, source) != 0 && destination + 1 < SIZE
      invariant source <= |message| && destination < SIZE
      invariant Copied(message, SIZE - 1) == buffer[..destination] + Copied(message[source..], SIZE - 1 - destination)
      decreases |message| - source
    {
      ghost var done, rest, room := buffer[..destination], message[source..], SIZE - 1 - destination;
      CopyUnfolds(rest, room);
      var length, valid := Measure(message, source);
      if !valid {
        buffer[destination] := QUESTION_MARK;
        assert buffer[..destination + 1] == done + [QUESTION_MARK] && rest[1..] == message[source + 1..];
        assert done + ([QUESTION_MARK] + Copied(rest[1..], room - 1)) ==
          (done + [QUESTION_MARK]) + Copied(rest[1..], room - 1);
        destination, source := destination + 1, source + 1;
        continue;
      }
      if destination + length >= SIZE {
        break;
      }
      CopyCharacter(buffer, destination, message, source, length);
      assert message[source..source + length] == rest[..length] && rest[length..] == message[source + length..];
      assert done + (rest[..length] + Copied(rest[length..], room - length)) ==
        (done + rest[..length]) + Copied(rest[length..], room - length);
      destination, source := destination + length, source + length;
    }
    CopyUnfolds(message[source..], SIZE - 1 - destination);
    buffer[destination] := 0;
    assert Copied(message, SIZE - 1) == buffer[..destination];
  }
}
