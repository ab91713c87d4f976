/** The service ID frame at the head of every data stream: the king writes it, the ling reads it. */
module ServiceFrame {
  import opened Basics

  type Byte = b: int | 0 <= b < 256

  const MAX_UINT16 := 65535

  /** binary.BigEndian.Uint16 */
  function Uint16(high: Byte, low: Byte): nat {
    256 * (high as int) + (low as int)
  }

  /** A big-endian 16-bit length and the ID. */
  function Frame(id: seq<Byte>): (frame: seq<Byte>)
    requires |id| <= MAX_UINT16
    ensures |frame| == 2 + |id| && 256 * frame[0] as int + frame[1] as int == |id| && frame[2..] == id
  {
    [|id| / 256, |id| % 256] + id
  }

  /** The ID at the head of a stream that ends after these bytes, and what is left unread. */
  function Decode(bytes: seq<Byte>): Option<(seq<Byte>, seq<Byte>)> {
    if |bytes| < 2 then None
    else
      var length := Uint16(bytes[0], bytes[1]);
      if |bytes| < 2 + length then None else Some((bytes[2..2 + length], bytes[2 + length..]))
  }

  /** The writing end: the peer accepts so many more bytes before the stream fails. */
  class WriteStream {
    var sent: seq<Byte>
    var room: nat

    method Write(p: seq<Byte>) returns (ok: bool)
      modifies this
      ensures ok <==> |p| <= old(room)
      ensures sent == old(sent) + p[..Min(|p|, old(room))] && room == old(room) - Min(|p|, old(room))
    {
      var n := if |p| <= room then |p| else room;
      ok := |p| <= room;
      sent := sent + p[..n];
      room := room - n;
    }
  }

  class ReadStream {
    var unread: seq<Byte>

    /** io.ReadFull: all n bytes, or an error once the stream ends short of them. */
    method ReadFull(n: nat) returns (r: Option<seq<Byte>>)
      modifies this
      ensures n <= |old(unread)| ==> r == Some(old(unread)[..n]) && unread == old(unread)[n..]
      ensures |old(unread)| < n ==> r == None && unread == []
    {
      if |unread| < n {
        unread := [];
        return None;
      }
      r := Some(unread[..n]);
      unread := unread[n..];
    }
  }

  datatype WriteOutcome = Written | TooLong | StreamFailed

  /** An ID that does not fit is refused before anything is written; otherwise as much of the frame as the
      stream takes has been sent. */
  method WriteServiceIDHeader(stream: WriteStream, id: seq<Byte>) returns (outcome: WriteOutcome)
    modifies stream
    ensures outcome == TooLong <==> 65535 < |id|
    ensures outcome == TooLong ==> stream.sent == old(stream.sent) && stream.room == old(stream.room)
    ensures outcome != TooLong ==>
      && (outcome == Written <==> |Frame(id)| <= old(stream.room))
      && stream.sent == old(stream.sent) + Frame(id)[..Min(|Frame(id)|, old(stream.room))]
  {
    if MAX_UINT16 < |id| {
      return TooLong;
    }
    var header: seq<Byte> := [|id| / 256, |id| % 256];
    ghost var room := stream.room;
    var ok := stream.Write(header);
    if !ok {
      assert Frame(id)[..room] == header[..room];
      return StreamFailed;
    }
    assert header[..2] == header;
    ok := stream.Write(id);
    assert Frame(id)[..Min(|Frame(id)|, room)] == header + id[..Min(|id|, room - 2)];
    outcome := if ok then Written else StreamFailed;
  }

  /** The ID is what Decode finds, and exactly the frame has been consumed. */
  method ReadServiceID(stream: ReadStream) returns (id: Option<seq<Byte>>)
    modifies stream
    ensures
      match Decode(old(stream.unread))
      case None => id == None && stream.unread == []
      case Some((i, rest)) => id == Some(i) && stream.unread == rest
  {
    var bytes := stream.unread;
    var header := stream.ReadFull(2);
    if header.None? {
      return None;
    }
    var length := Uint16(header.value[0], header.value[1]);
    id := stream.ReadFull(length);
    assert 2 + length <= |bytes| ==>
      bytes[2..][..length] == bytes[2..2 + length] && bytes[2..][length..] == bytes[2 + length..];
  }

  /** Decoding is the exact inverse of framing: bytes decode to an ID and a rest when, and only when, they are
      that ID's frame followed by that rest. */
  lemma DecodeInvertsFrame(bytes: seq<Byte>, id: seq<Byte>, rest: seq<Byte>)
    ensures Decode(bytes) == Some((id, rest)) <==> |id| <= MAX_UINT16 && bytes == Frame(id) + rest
  {
    if |id| <= MAX_UINT16 && bytes == Frame(id) + rest {
      assert Uint16(bytes[0], bytes[1]) == |id|;
      assert bytes[2..2 + |id|] == id && bytes[2 + |id|..] == rest;
    }
    if Decode(bytes) == Some((id, rest)) {
      assert bytes == bytes[..2] + bytes[2..2 + |id|] + bytes[2 + |id|..];
      assert bytes[..2] == [bytes[0], bytes[1]];
      assert |id| / 256 == bytes[0] && |id| % 256 == bytes[1];
    }
  }

  /** No strict prefix of a frame decodes, so a frame cut short by a failing stream is never taken for an ID. */
  lemma CutFrameNeverDecodes(id: seq<Byte>, n: nat)
    requires |id| <= MAX_UINT16 && n < |Frame(id)|
    ensures Decode(Frame(id)[..n]) == None
  {
    var cut := Frame(id)[..n];
    if 2 <= n {
      assert Uint16(cut[0], cut[1]) == |id|;
    }
  }
}
