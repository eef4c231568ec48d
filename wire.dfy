/** The bytes that travel between the relay and its clients: the fixed texts the
    server writes, how a display name is taken from the first read, and how a
    chunk is tagged with its sender's name before it is broadcast. */
module ChatWire {

  newtype byte = x: int | 0 <= x < 256

  type Bytes = seq<byte>

  datatype Option<T> = None | Some(value: T)

  /** Go's `[]byte("...")` for a literal whose characters all fit in one byte. */
  function Ascii(s: string): (b: Bytes)
    requires forall i :: 0 <= i < |s| ==> s[i] as int < 256
    ensures |b| == |s|
    ensures forall i :: 0 <= i < |s| ==> b[i] as int == s[i] as int
  {
    seq(|s|, i requires 0 <= i < |s| => s[i] as int as byte)
  }

  /** Size of the buffer the first read (the name) goes into. */
  const NameBufSize := 256
  /** Size of the buffer every later read goes into. */
  const ChunkBufSize := 2048

  const OpenBracket: byte := 91   // '['
  const CloseBracket: byte := 93  // ']'
  const Newline: byte := 10       // '\n'

  /** Written to a connection turned away because the chat is full. */
  const Rejection: Bytes := Ascii("The Chat is Maximum")
  /** Written to a connection whose name came out empty. */
  const NoNameReply: Bytes := Ascii("No name provided")
  const JoinSuffix: Bytes := Ascii(" joined the Chat \n")
  const LeaveSuffix: Bytes := Ascii(" left the Chat")

  /** The display name carried by the first read: every byte of it but the
      last, whatever that last byte is (the client is expected to end its
      name with a newline, but nothing checks that). */
  function DeriveName(read: Bytes): (name: Bytes)
    requires |read| >= 1
    ensures |name| == |read| - 1
    ensures name + [read[|read| - 1]] == read
  {
    read[..|read| - 1]
  }

  /** A client that sends its name followed by any one terminator byte gets
      exactly that name back. */
  lemma DeriveNameOfLine(name: Bytes, terminator: byte)
    ensures DeriveName(name + [terminator]) == name
  {
  }

  /** Announced to every named client when a session completes naming. */
  function JoinMessage(name: Bytes): Bytes
  {
    name + JoinSuffix
  }

  /** Announced to every named client when an active session's read fails. */
  function LeaveMessage(name: Bytes): Bytes
  {
    name + LeaveSuffix
  }

  /** The join notice ends with a newline and the leave notice does not, so
      no join notice is ever byte-for-byte a leave notice. */
  lemma JoinIsNeverLeave(a: Bytes, b: Bytes)
    ensures JoinMessage(a)[..|a|] == a && JoinMessage(a)[|JoinMessage(a)| - 1] == Newline
    ensures LeaveMessage(b)[..|b|] == b && LeaveMessage(b)[|LeaveMessage(b)| - 1] != Newline
    ensures JoinMessage(a) != LeaveMessage(b)
  {
    var j, l := JoinMessage(a), LeaveMessage(b);
    assert j[|j| - 1] == JoinSuffix[|JoinSuffix| - 1];
    assert l[|l| - 1] == LeaveSuffix[|LeaveSuffix| - 1];
  }

  /** A chunk of n bytes as broadcast: '[' name ']' and then the n bytes
      verbatim, with no framing and no validation of their content. */
  function Tag(name: Bytes, chunk: Bytes): Bytes
  {
    [OpenBracket] + name + [CloseBracket] + chunk
  }

  /** The tagged message is |name| + 2 + |chunk| bytes long: the name between
      brackets, then the chunk unchanged. */
  lemma TagLayout(name: Bytes, chunk: Bytes)
    ensures |Tag(name, chunk)| == |name| + 2 + |chunk|
    ensures Tag(name, chunk)[0] == OpenBracket && Tag(name, chunk)[|name| + 1] == CloseBracket
    ensures Tag(name, chunk)[1..|name| + 1] == name && Tag(name, chunk)[|name| + 2..] == chunk
  {
  }

  /** Position of the first b in s, or |s| when there is none. */
  function IndexOf(s: Bytes, b: byte): (i: nat)
    ensures i <= |s|
    ensures i < |s| ==> s[i] == b
    ensures forall k :: 0 <= k < i ==> s[k] != b
  {
    if s == [] then 0
    else if s[0] == b then 0
    else 1 + IndexOf(s[1..], b)
  }

  /** How a recipient reads a tagged message: the bytes between the leading
      '[' and the first ']' are the sender's name, the rest is the chunk. */
  function Untag(msg: Bytes): Option<(Bytes, Bytes)>
  {
    if |msg| == 0 || msg[0] != OpenBracket then None
    else
      var j := IndexOf(msg[1..], CloseBracket);
      if j == |msg| - 1 then None else Some((msg[1..j + 1], msg[j + 2..]))
  }

  /** For a name without ']', the recipient recovers the sender's name and the
      exact bytes sent. */
  lemma TagRoundTrip(name: Bytes, chunk: Bytes)
    requires CloseBracket !in name
    ensures Untag(Tag(name, chunk)) == Some((name, chunk))
  {
    var msg := Tag(name, chunk);
    TagLayout(name, chunk);
    var rest := msg[1..];
    assert rest == name + [CloseBracket] + chunk;
    var j := IndexOf(rest, CloseBracket);
    assert rest[|name|] == CloseBracket;
    assert forall k :: 0 <= k < |name| ==> rest[k] == name[k];
  }

  /** Names are not checked for ']': the client named "a]" sending "b" and the
      client named "a" sending "]b" put the same bytes on the wire. */
  lemma TagAmbiguousForBracketNames()
    ensures Tag(Ascii("a]"), Ascii("b")) == Tag(Ascii("a"), Ascii("]b"))
    ensures Ascii("a]") != Ascii("a")
  {
    assert |Ascii("a]")| != |Ascii("a")|;
  }
}
