/** LogFile (slog/LogFileAppender.cc): a write buffer in front of write(2), which may write less. */
module LogFile {

  // What one call of write does.  Once the replies are used up, write takes all it is given.
  datatype Reply = Wrote(n: nat) | Interrupted | Failed

  const FILE_BUFF: nat := 256 * 1024

  // A write that succeeds takes at least one byte and no more than it is given.
  function Taken(r: Reply, len: nat): (n: nat)
    requires r.Wrote? && 0 < len
    ensures 1 <= n <= len
  {
    if r.n < 1 then 1 else if r.n > len then len else r.n
  }

  // The number of bytes that AppendRaw gets out.
  function Accepted(len: nat, replies: seq<Reply>): (n: nat)
    ensures n <= len
    decreases |replies|
  {
    if len == 0 then 0
    else if replies == [] then len
    else
      match replies[0]
      case Wrote(_) => var k := Taken(replies[0], len); k + Accepted(len - k, replies[1..])
      case Interrupted => Accepted(len, replies[1..])
      case Failed => 0
  }

  // What the successful writes among these replies take of a text that is long enough.
  function Sent(replies: seq<Reply>): nat {
    if replies == [] then 0
    else (if !replies[0].Wrote? then 0 else if replies[0].n < 1 then 1 else replies[0].n) + Sent(replies[1..])
  }

  // The k-th write fails, and the writes before it take less than `len` bytes.
  ghost predicate FailsIn(len: nat, replies: seq<Reply>, k: nat) {
    k < |replies| && replies[k].Failed? && Sent(replies[..k]) < len
  }

  lemma {:induction false} AllAccepted(len: nat, replies: seq<Reply>)
    requires forall k :: 0 <= k < |replies| ==> !replies[k].Failed?
    ensures Accepted(len, replies) == len
    decreases |replies|
  {
    if len > 0 && replies != [] {
      AllAccepted(if replies[0].Wrote? then len - Taken(replies[0], len) else len, replies[1..]);
    }
  }

  /** AppendRaw gets all bytes out if and only if no write fails while bytes are left. */
  lemma {:induction false} AcceptedIff(len: nat, replies: seq<Reply>)
    ensures Accepted(len, replies) == len <==> forall k :: 0 <= k < |replies| ==> !FailsIn(len, replies, k)
    decreases |replies|
  {
    if len == 0 || replies == [] {
    } else if replies[0].Failed? {
      assert FailsIn(len, replies, 0);
    } else {
      var rest := if replies[0].Wrote? then len - Taken(replies[0], len) else len;
      AcceptedIff(rest, replies[1..]);
      assert !FailsIn(len, replies, 0);
      forall k | 1 <= k < |replies|
        ensures FailsIn(len, replies, k) <==> FailsIn(rest, replies[1..], k - 1)
      {
        assert replies[..k][1..] == replies[1..][..k - 1];
      }
      assert forall k :: 0 <= k < |replies| - 1 ==> (FailsIn(rest, replies[1..], k) <==> FailsIn(len, replies, k + 1));
    }
  }

  // ----- The buffered file as a value -----

  datatype File = File(disk: string, buff: string)

  function Flushed(f: File, replies: seq<Reply>): (r: File) {
    File(f.disk + f.buff[..Accepted(|f.buff|, replies)], "")
  }

  function Appended(f: File, msg: string, replies: seq<Reply>): (r: File) {
    var g := if |f.buff| > FILE_BUFF - |msg| then Flushed(f, replies) else f;
    File(g.disk, g.buff + msg)
  }

  // Everything ever appended, given that nothing was dropped.
  function Text(f: File): string { f.disk + f.buff }

  // How many bytes this call drops.
  function Dropped(f: File, msg: string, replies: seq<Reply>): nat {
    if |f.buff| > FILE_BUFF - |msg| then |f.buff| - Accepted(|f.buff|, replies) else 0
  }

  lemma {:induction false} AppendText(f: File, msg: string, replies: seq<Reply>)
    ensures |Text(Appended(f, msg, replies))| + Dropped(f, msg, replies) == |Text(f)| + |msg|
    ensures Dropped(f, msg, replies) == 0 ==> Text(Appended(f, msg, replies)) == Text(f) + msg
    ensures |f.buff| <= FILE_BUFF && |msg| <= FILE_BUFF ==> |Appended(f, msg, replies).buff| <= FILE_BUFF
  {
    var n := Accepted(|f.buff|, replies);
    if n == |f.buff| { assert f.buff[..n] == f.buff; }
    assert f.disk + f.buff + "" + msg == f.disk + f.buff + msg;
    assert f.disk + (f.buff + msg) == f.disk + f.buff + msg;
  }

  lemma FlushText(f: File, replies: seq<Reply>)
    ensures var n := Accepted(|f.buff|, replies);
      && |Text(Flushed(f, replies))| + (|f.buff| - n) == |Text(f)|
      && (n == |f.buff| ==> Text(Flushed(f, replies)) == Text(f))
  {
    var n := Accepted(|f.buff|, replies);
    if n == |f.buff| { assert f.buff[..n] == f.buff; }
  }

  // ----- In place -----

  class LogFile {
    const m_file_buff: array<char>
    var m_cur: nat
    var disk: string                // what write has put into the file

    ghost predicate Valid()
      reads this
    {
      m_file_buff.Length == FILE_BUFF && m_cur <= FILE_BUFF
    }

    ghost function Contents(): File
      reads this, m_file_buff
      requires Valid()
    {
      File(disk, m_file_buff[..m_cur])
    }

    constructor (old_contents: string)
      ensures Valid() && fresh(m_file_buff) && Contents() == File(old_contents, "")
    {
      m_file_buff := new char[FILE_BUFF](i => '\0');
      m_cur := 0;
      disk := old_contents;
    }

    // AppendRaw of the first `size` bytes of m_file_buff, against a given behaviour of write.
    method AppendRaw(size: nat, replies: seq<Reply>) returns (ret: nat)
      requires Valid() && size <= FILE_BUFF
      modifies this`disk
      ensures Valid() && ret == Accepted(size, replies) && disk == old(disk) + m_file_buff[..ret]
    {
      ret := 0;
      var len, left := size, replies;
      while len > 0
        invariant ret + len == size && disk == old(disk) + m_file_buff[..ret]
        invariant ret + Accepted(len, left) == Accepted(size, replies)
        decreases len, |left|
      {
        var written := len;
        if left != [] {
          var r := left[0];
          left := left[1..];
          if r.Failed? { break; }
          if r.Interrupted? { continue; }
          written := Taken(r, len);
        }
        disk := disk + m_file_buff[ret..ret + written];
        assert m_file_buff[..ret + written] == m_file_buff[..ret] + m_file_buff[ret..ret + written];
        ret := ret + written;
        len := len - written;
      }
    }

    method Flush(replies: seq<Reply>)
      requires Valid()
      modifies this
      ensures Valid() && Contents() == Flushed(old(Contents()), replies)
    {
      var n := AppendRaw(m_cur, replies);
      assert m_file_buff[..m_cur][..n] == m_file_buff[..n];
      m_cur := 0;
      assert m_file_buff[..0] == "";
    }

    method Append(msg: string, replies: seq<Reply>) returns (ret: nat)
      requires Valid() && |msg| <= FILE_BUFF
      modifies this, m_file_buff
      ensures Valid() && ret == |msg| && Contents() == Appended(old(Contents()), msg, replies)
    {
      if m_cur > FILE_BUFF - |msg| { Flush(replies); }
      ghost var was := m_file_buff[..m_cur];
      var i := 0;
      while i < |msg|
        invariant 0 <= i <= |msg| && m_cur + |msg| <= FILE_BUFF
        invariant m_file_buff[..m_cur] == was && m_file_buff[m_cur..m_cur + i] == msg[..i]
        invariant unchanged(this) || (m_cur == 0 && disk == Flushed(old(Contents()), replies).disk)
      {
        m_file_buff[m_cur + i] := msg[i];
        i := i + 1;
      }
      assert m_file_buff[..m_cur + |msg|] == m_file_buff[..m_cur] + m_file_buff[m_cur..m_cur + |msg|];
      m_cur := m_cur + |msg|;
      ret := |msg|;
    }
  }
}
