/** One download of the streaming cache: the first listener reads the upstream body
    while it is written to a temporary file, and whoever leaves early hands the
    rest over to a drain in the background. */
module CacheTee {
  import opened Wrappers

  type Byte = bv8

  datatype TeeError = TooLarge | WrongSize | ReadFailed | WriteFailed | StoreFailed

  /** How one read ends for the listener. */
  datatype ReadEnd = More | Eof | Failed(error: TeeError)

  /** One answer of the connection: how many bytes, and whether it then says that the
      body is over or breaks. */
  datatype Answer = Answer(count: nat, end: Line)

  datatype Line = Open | Over | Broken

  /** How many bytes of a write the disk takes; all of them when it does not fail. */
  datatype Disk = Works | FailsAfter(count: nat)

  /** Whether closing and renaming the file and writing the row work. */
  datatype Storing = Storing(closes: bool, renames: bool, records: bool)

  const STORING_WORKS := Storing(true, true, true)

  /** What is the matter when a download ends with the error. */
  ghost predicate Because(error: TeeError, maxObjectBytes: int, total: int, size: nat, breaks: bool, disk: Disk, st: Storing)
  {
    match error
    case TooLarge => maxObjectBytes > 0 && size > maxObjectBytes
    case WrongSize => total >= 0 && size != total
    case ReadFailed => breaks
    case WriteFailed => disk.FailsAfter?
    case StoreFailed => st != STORING_WORKS
  }

  class Tee {
    const maxObjectBytes: int
    const total: int
    const body: seq<Byte>
    var position: nat
    var fetched: nat
    var tmp: Option<seq<Byte>>
    var done: bool
    var handedOff: bool
    var file: Option<seq<Byte>>
    var row: Option<nat>
    var finished: seq<Option<TeeError>>

    /** The object may be cached: within the limit, and of the declared size if one
        was declared. */
    predicate Fits() {
      (maxObjectBytes <= 0 || |body| <= maxObjectBytes) && (total < 0 || |body| == total)
    }

    /** While it runs, the file is what was read so far. Once done, it was reported
        exactly once, the temporary file is gone, and what is cached is the body. */
    ghost predicate Valid()
      reads this
    {
      && position <= |body|
      && (!done ==>
            && fetched == position && tmp == Some(body[..fetched])
            && (maxObjectBytes > 0 ==> fetched <= maxObjectBytes)
            && row.None? && file.None? && finished == [])
      && (done ==>
            && tmp.None? && |finished| == 1
            && (finished[0].None? <==> row.Some?) && (file.Some? <==> row.Some?)
            && (row.Some? ==> Fits() && file.value == body && row.value == |body|))
    }

    constructor (maxObjectBytes: int, total: int, body: seq<Byte>)
      ensures Valid() && !done && !handedOff
      ensures this.maxObjectBytes == maxObjectBytes && this.total == total && this.body == body
    {
      this.maxObjectBytes, this.total, this.body := maxObjectBytes, total, body;
      position, fetched, tmp, done, handedOff := 0, 0, Some([]), false, false;
      file, row, finished := None, None, [];
    }

    /** How many bytes a read asks the connection for: one more than are allowed, so
        that an overrun shows. */
    function Asked(length: nat): int
      reads this
    {
      if maxObjectBytes > 0 && length > maxObjectBytes - fetched then maxObjectBytes - fetched + 1 else length
    }

    /** A connection delivers the body in order and says it is over only at its end. */
    predicate CanAnswer(length: nat, a: Answer)
      reads this
    {
      a.count <= Asked(length) && position + a.count <= |body| && (a.end.Over? ==> position + a.count == |body|)
    }

    method Fail(error: TeeError)
      modifies this`done, this`tmp, this`finished
      ensures done
      ensures old(done) ==> tmp == old(tmp) && finished == old(finished)
      ensures !old(done) ==> tmp.None? && finished == old(finished) + [Some(error)]
    {
      if done {
        return;
      }
      done := true;
      tmp := None;
      finished := finished + [Some(error)];
    }

    method Write(chunk: seq<Byte>, disk: Disk) returns (count: nat, ok: bool)
      requires tmp.Some?
      modifies this`tmp, this`fetched
      ensures count <= |chunk| && (ok ==> count == |chunk|) && (disk.Works? ==> ok)
      ensures fetched == old(fetched) + count && tmp == Some(old(tmp).value + chunk[..count])
    {
      count, ok := |chunk|, true;
      if disk.FailsAfter? && disk.count < |chunk| {
        count, ok := disk.count, false;
      }
      tmp := Some(tmp.value + chunk[..count]);
      fetched := fetched + count;
    }

    /** Everything has been read: the file becomes the cached one, unless it is too
        large, of the wrong size or cannot be stored. */
    method Finalize(st: Storing) returns (error: Option<TeeError>)
      requires !done ==> tmp == Some(body) && fetched == |body| && row.None? && file.None? && finished == []
      modifies this`done, this`tmp, this`file, this`row, this`finished
      ensures done
      ensures old(done) ==>
                tmp == old(tmp) && file == old(file) && row == old(row) && finished == old(finished)
      ensures !old(done) ==>
                && tmp.None? && finished == [error] && file == (if error.None? then Some(body) else None)
                && row == (if error.None? then Some(|body|) else None)
                && (error.None? <==> Fits() && st == STORING_WORKS)
                && (error.Some? ==> Because(error.value, maxObjectBytes, total, |body|, false, Works, st))
    {
      var size := fetched;
      if maxObjectBytes > 0 && size > maxObjectBytes {
        Fail(TooLarge);
        return Some(TooLarge);
      }
      if total >= 0 && size != total {
        Fail(WrongSize);
        return Some(WrongSize);
      }
      if done {
        return None;
      }
      done := true;
      if !st.closes || !st.renames {
        tmp := None;
        finished := finished + [Some(StoreFailed)];
        return Some(StoreFailed);
      }
      file, tmp := tmp, None;
      if st.records {
        row := Some(size);
        error := None;
      } else {
        file := None;
        error := Some(StoreFailed);
      }
      finished := finished + [error];
    }

    /** One read of the listener. What the listener gets is what the file gets; a
        clean end of the stream means that the object is cached. */
    method Read(length: nat, answer: Answer, disk: Disk, st: Storing) returns (bytes: seq<Byte>, end: ReadEnd)
      requires Valid() && !handedOff
      requires !done ==> CanAnswer(length, answer)
      modifies this
      ensures Valid() && !handedOff
      ensures !old(done) ==> bytes <= body[old(position)..]
      ensures !done ==> fetched == old(fetched) + |bytes|
      ensures !done && length > 0 ==> |bytes| == answer.count && answer.end.Open?
      ensures old(done) ==> row == old(row) && bytes == []
      ensures !old(done) ==> (end.Eof? <==> row.Some?) && (end.More? <==> !done)
      ensures !old(done) && row.Some? ==> bytes == body[old(position)..]
      ensures !old(done) && done && disk.Works? && !answer.end.Broken? && st == STORING_WORKS ==>
                (row.Some? <==> Fits())
      ensures !old(done) && done && row.None? ==>
                && end.Failed? && finished == [Some(end.error)]
                && Because(end.error, maxObjectBytes, total, |body|, answer.end.Broken?, disk, st)
    {
      if length == 0 {
        return [], More;
      }
      var remaining: int := length;
      if maxObjectBytes > 0 {
        remaining := maxObjectBytes - fetched;
        if remaining < 0 {
          Fail(TooLarge);
          return [], Failed(TooLarge);
        }
      }
      if done {
        return [], Failed(ReadFailed);
      }
      var n := answer.count;
      var chunk := body[position..position + n];
      assert body[..position] + chunk == body[..position + n] && chunk <= body[position..];
      assert chunk[..|chunk|] == chunk && body[..|body|] == body;
      position := position + n;
      if maxObjectBytes > 0 && n > remaining {
        if remaining > 0 {
          var written, ok := Write(chunk[..remaining], disk);
          if !ok {
            Fail(WriteFailed);
            return chunk[..written], Failed(WriteFailed);
          }
        }
        Fail(TooLarge);
        return chunk[..remaining], Failed(TooLarge);
      }
      if n > 0 {
        var written, ok := Write(chunk, disk);
        if !ok {
          Fail(WriteFailed);
          return chunk[..written], Failed(WriteFailed);
        }
      }
      match answer.end {
        case Over =>
          var error := Finalize(st);
          return chunk, if error.Some? then Failed(error.value) else Eof;
        case Broken =>
          Fail(ReadFailed);
          return chunk, Failed(ReadFailed);
        case Open =>
          return chunk, More;
      }
    }

    /** The listener leaves; true when the rest is handed over to the drain. */
    method Close() returns (drains: bool)
      requires Valid()
      modifies this`handedOff
      ensures Valid() && drains == (!done && !old(handedOff)) && handedOff == (old(handedOff) || drains)
    {
      if done {
        return false;
      }
      if handedOff {
        return false;
      }
      handedOff := true;
      return true;
    }

    /** The rest of the body is copied without a listener, at most one byte beyond the
        limit. `breaksAfter` is where the copy fails, if it does. */
    method Drain(breaksAfter: Option<nat>, st: Storing)
      requires Valid() && handedOff && !done
      modifies this
      ensures Valid() && done && handedOff
      ensures breaksAfter.None? && st == STORING_WORKS ==> (row.Some? <==> Fits())
      ensures row.None? ==>
                && finished[0].Some?
                && Because(finished[0].value, maxObjectBytes, total, |body|, breaksAfter.Some?, Works, st)
    {
      var goal := |body| - position;
      if maxObjectBytes > 0 {
        var remaining := maxObjectBytes - fetched;
        if goal > remaining + 1 {
          goal := remaining + 1;
        }
      }
      var n, ok := goal, true;
      if breaksAfter.Some? && breaksAfter.value < goal {
        n, ok := breaksAfter.value, false;
      }
      assert body[..position] + body[position..position + n] == body[..position + n];
      assert body[..|body|] == body;
      tmp := Some(tmp.value + body[position..position + n]);
      position := position + n;
      fetched := fetched + n;
      if !ok {
        Fail(ReadFailed);
        return;
      }
      if maxObjectBytes > 0 && fetched > maxObjectBytes {
        Fail(TooLarge);
        return;
      }
      var _ := Finalize(st);
    }

    /** The whole life of a download without failures: any reads, cut short at any
        byte, then the listener leaves. Afterwards the object is cached exactly when
        it fits, and then the file is the body, byte for byte. */
    method Serve(plan: seq<(nat, nat, bool)>) returns (received: seq<Byte>)
      requires Valid() && !done && !handedOff && position == 0
      modifies this
      ensures Valid() && done
      ensures row.Some? <==> (maxObjectBytes <= 0 || |body| <= maxObjectBytes) && (total < 0 || |body| == total)
      ensures row.Some? ==> file == Some(body)
      ensures !row.Some? ==> file.None?
      ensures tmp.None? && |finished| == 1
      ensures received <= body && (row.Some? && !handedOff ==> received == body)
    {
      received := [];
      var i := 0;
      while i < |plan| && !done
        invariant 0 <= i <= |plan|
        invariant Valid() && !handedOff
        invariant !done ==> received == body[..position]
        invariant done ==> (row.Some? <==> Fits()) && (row.Some? ==> received == body)
        invariant received <= body
      {
        var (length, count, says) := plan[i];
        var n := count;
        if n > Asked(length) {
          n := Asked(length);
        }
        if n > |body| - position {
          n := |body| - position;
        }
        ghost var start := position;
        var bytes, end := Read(length, Answer(n, if says && position + n == |body| then Over else Open),
                               Works, STORING_WORKS);
        assert body[..start] + body[start..] == body;
        received := received + bytes;
        i := i + 1;
      }
      var drains := Close();
      if drains {
        Drain(None, STORING_WORKS);
      }
    }
  }
}
