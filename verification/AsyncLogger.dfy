/** The logger object: the shared buffers, the worker's own buffers, and the log file. Its
    methods are the actions of the protocol; a buffer is owned through exactly one pointer, so
    it is represented by its text, and a null pointer by `None`. */
module AsyncLoggers {
  import opened Text
  import opened LoggerProtocol

  const FLUSH_INTERVAL := 3 * 1000000

  class LogFile {
    var contents: string
    /** How much of the contents has been flushed. */
    var flushed: nat
    var writtenBytes: nat
    var lastWrite: int
    var lastFlush: int

    constructor ()
      ensures contents == "" && flushed == 0 && writtenBytes == 0 && lastWrite == 0 && lastFlush == 0
    {
      contents, flushed, writtenBytes, lastWrite, lastFlush := "", 0, 0, 0, 0;
    }

    /** Repeats `fwrite` until it has taken the whole line; each call takes some of it. The file
        is flushed when the last periodic flush is too long ago at the time `now`. */
    method Write(line: string, now: int)
      modifies this
      ensures contents == old(contents) + line
      ensures writtenBytes == old(writtenBytes) + |line|
      ensures lastWrite == if line != "" then now else old(lastWrite)
      ensures if now - old(lastFlush) > 3000000 then flushed == |contents| && lastFlush == now
              else flushed == old(flushed) && lastFlush == old(lastFlush)
    {
      var pos := 0;
      while pos != |line|
        invariant pos <= |line| && contents == old(contents) + line[..pos]
        invariant writtenBytes == old(writtenBytes) && flushed == old(flushed)
        invariant lastWrite == old(lastWrite) && lastFlush == old(lastFlush)
        decreases |line| - pos
      {
        var taken: nat :| 1 <= taken <= |line| - pos;
        contents := contents + line[pos..pos + taken];
        assert line[..pos] + line[pos..pos + taken] == line[..pos + taken];
        pos := pos + taken;
      }
      assert line[..pos] == line;
      if |line| != 0 {
        lastWrite := now;
        writtenBytes := writtenBytes + |line|;
      }
      if now - lastFlush > FLUSH_INTERVAL {
        Flush();
        lastFlush := now;
      }
    }

    method Flush()
      modifies this`flushed
      ensures flushed == |contents|
    {
      flushed := |contents|;
    }
  }

  const MAX_FILE_SIZE := 1024 * 1024 * 1024

  class AsyncLogger {
    const capacity: nat
    var buffer: Option<string>
    var nextBuffer: Option<string>
    var buffers: seq<string>
    // local to the worker thread
    var activeBuffers: seq<string>
    var newCurrent: Option<string>
    var newNext: Option<string>
    var logFile: LogFile
    /** Contents of the files that have been closed. */
    var rolled: string
    ghost var phase: Phase
    ghost var appended: string
    ghost var batches: seq<nat>

    ghost function View(): State
      reads this, logFile
    {
      State(phase, buffer, nextBuffer, buffers, activeBuffers, newCurrent, newNext,
            rolled + logFile.contents, appended, batches)
    }

    constructor (capacity: nat)
      ensures View() == START && this.capacity == capacity && fresh(logFile)
    {
      this.capacity := capacity;
      buffer, nextBuffer, newCurrent, newNext := Some(""), Some(""), Some(""), Some("");
      buffers, activeBuffers := [], [];
      logFile := new LogFile();
      rolled := "";
      phase, appended, batches := AtHead, "", [];
    }

    method Append(line: string)
      requires Ready(View()) && Enabled(View(), Step.Append(line), capacity)
      modifies this
      ensures logFile == old(logFile) && View() == Apply(old(View()), Step.Append(line), capacity)
    {
      if |buffer.value| + |line| < capacity {
        buffer := Some(Fill(buffer.value, line, capacity));
      } else {
        buffers := buffers + [buffer.value];
        if nextBuffer.Some? {
          buffer := nextBuffer;
          nextBuffer := None;
        } else {
          buffer := Some("");
        }
        buffer := Some(Fill(buffer.value, line, capacity));
      }
      appended := appended + line;
    }

    /** The worker's critical section. */
    method SwapBuffers()
      requires Ready(View()) && Enabled(View(), Swap, capacity)
      modifies this
      ensures logFile == old(logFile) && View() == Apply(old(View()), Swap, capacity)
    {
      hide Apply, Enabled, Ready;
      ghost var s := View();
      assert s.current.Some? && s.newCurrent.Some? && s.newSpare.Some? by { SwapIs(s, capacity); }
      assert Apply(s, Swap, capacity) == Swapped(s) by { SwapIs(s, capacity); }
      buffers := buffers + [buffer.value];
      buffer := None;
      assert buffers == s.full + [s.current.value];
      activeBuffers, buffers := buffers, activeBuffers;
      assert View() == s.(active := activeBuffers, full := s.active, current := None);
      if buffer.None? && newCurrent.Some? {
        newCurrent := None;
        buffer := Some("");
      }
      assert View() == s.(active := activeBuffers, full := s.active, current := Some(""), newCurrent := None);
      if nextBuffer.None? && newNext.Some? {
        newNext := None;
        nextBuffer := Some("");
      }
      phase, batches := Writing(0), batches + [|activeBuffers|];
    }

    /** One buffer of the batch goes to the file. */
    method WriteOne(i: nat)
      requires Ready(View()) && phase == Writing(i) && i < |activeBuffers|
      modifies this, logFile
      ensures logFile == old(logFile) && View() == Apply(old(View()), Step.WriteOne, capacity)
      ensures rolled == old(rolled) && logFile.writtenBytes == old(logFile.writtenBytes) + |old(activeBuffers[i])|
    {
      ghost var text := logFile.contents;
      var now: int :| true;
      logFile.Write(activeBuffers[i], now);
      assert rolled + (text + activeBuffers[i]) == rolled + text + activeBuffers[i];
      phase := Writing(i + 1);
    }

    /** Writes the batch; a file that has grown too large is followed by a new one. */
    method WriteBatch()
      requires Ready(View()) && phase == Writing(0)
      modifies this, logFile
      ensures View() == Written(old(View()), capacity)
      ensures if old(logFile.writtenBytes) + |Concat(old(activeBuffers))| > 1073741824
        then fresh(logFile) && logFile.contents == "" && logFile.writtenBytes == 0
        else logFile == old(logFile) && rolled == old(rolled)
    {
      hide Apply;
      ghost var batch := activeBuffers;
      assert batch[..0] == [];
      for i := 0 to |activeBuffers|
        invariant logFile == old(logFile) && activeBuffers == batch
        invariant phase == Writing(i) && Ready(View()) && rolled == old(rolled)
        invariant logFile.writtenBytes == old(logFile.writtenBytes) + |Concat(batch[..i])|
        invariant Written(View(), capacity) == Written(old(View()), capacity)
      {
        ghost var s := View();
        WriteOne(i);
        WriteOneChanges(s, capacity);
        assert batch[..i + 1] == batch[..i] + [batch[i]];
        ConcatSnoc(batch[..i], batch[i]);
      }
      assert batch[..|batch|] == batch;
      assert Written(View(), capacity) == View();
      if logFile.writtenBytes > MAX_FILE_SIZE {
        rolled := rolled + logFile.contents;
        logFile := new LogFile();
        assert rolled + "" == rolled;
      }
    }

    /** Takes up to two buffers of the batch back for reuse. */
    method RecycleBuffers()
      requires Ready(View()) && Enabled(View(), Recycle, capacity)
      modifies this
      ensures logFile == old(logFile) && View() == Apply(old(View()), Recycle, capacity)
    {
      if activeBuffers != [] {
        activeBuffers := activeBuffers[..|activeBuffers| - 1];
      }
      newCurrent := Some("");
      if activeBuffers != [] {
        activeBuffers := activeBuffers[..|activeBuffers| - 1];
      }
      newNext := Some("");
      phase := AtHead;
    }

    method DrainOne(i: nat)
      requires Ready(View()) && phase == Draining(i) && i < |buffers|
      modifies this, logFile
      ensures logFile == old(logFile) && View() == Apply(old(View()), Step.DrainOne, capacity)
    {
      ghost var text := logFile.contents;
      var now: int :| true;
      logFile.Write(buffers[i], now);
      assert rolled + (text + buffers[i]) == rolled + text + buffers[i];
      buffers := buffers[i := ""];
      phase := Draining(i + 1);
    }

    /** After the loop: the full buffers and then the current one. */
    method Drain()
      requires Ready(View()) && phase == AtHead
      modifies this, logFile
      ensures logFile == old(logFile)
      ensures View() == Drained(Apply(old(View()), Leave, capacity), capacity)
      ensures logFile.flushed == |logFile.contents|
    {
      ghost var start := Apply(View(), Leave, capacity);
      phase := Draining(0);
      for i := 0 to |buffers|
        invariant logFile == old(logFile)
        invariant phase == Draining(i) && Ready(View())
        invariant i <= |buffers| == |start.full|
        invariant Drained(View(), capacity) == Drained(start, capacity)
      {
        ghost var s := View();
        DrainOne(i);
        DrainOneChanges(s, capacity);
      }
      ghost var s := View();
      assert Drained(s, capacity) == Apply(s, DrainLast, capacity);
      if buffer.Some? {
        ghost var text := logFile.contents;
        var now: int :| true;
        logFile.Write(buffer.value, now);
        assert rolled + (text + buffer.value) == rolled + text + buffer.value;
        buffer := Some("");
      }
      logFile.Flush();
      phase := Stopped;
    }
  }

  lemma SwapIs(s: State, capacity: nat)
    requires Ready(s) && Enabled(s, Swap, capacity)
    ensures s.current.Some? && s.newCurrent.Some? && s.newSpare.Some? && Apply(s, Swap, capacity) == Swapped(s)
  {
  }

  lemma WriteOneChanges(s: State, capacity: nat)
    requires Ready(s) && Enabled(s, WriteOne, capacity)
    ensures var t := Apply(s, WriteOne, capacity);
            Ready(t) && t.active == s.active && t.phase == Writing(s.phase.next + 1)
  {
  }

  lemma DrainOneChanges(s: State, capacity: nat)
    requires Ready(s) && Enabled(s, DrainOne, capacity)
    ensures var t := Apply(s, DrainOne, capacity);
            Ready(t) && |t.full| == |s.full| && t.phase == Draining(s.phase.next + 1)
  {
  }
}
