/** The maps of the client that reassemble files, and the handler that updates them. */
module FileReaders {
  import opened Prelude
  import opened FileTransfer

  class FileReader {
    var pendingReads: map<RequestId, Pending>
    var activeTransfers: map<RequestId, Transfer>
    var completedReads: map<RequestId, File>
    ghost var replies: seq<Reply>

    ghost function View(): State
      reads this
    {
      State(pendingReads, activeTransfers, completedReads, replies)
    }

    constructor ()
      ensures View() == INITIAL
    {
      pendingReads, activeTransfers, completedReads, replies := map[], map[], map[], [];
    }

    method BeginRead(id: RequestId, pending: Pending)
      modifies this
      ensures View() == Step(old(View()), Reads(id, pending))
    {
      pendingReads := pendingReads[id := pending];
    }

    /** A read ends: with the completed file when the response was a success, without it otherwise. */
    method EndRead(id: RequestId, success: bool) returns (file: Option<File>)
      modifies this
      ensures View() == Step(old(View()), if success then Takes(id) else Drops(id))
      ensures file == if success && id in old(completedReads) then Some(old(completedReads)[id]) else None
    {
      file := None;
      if success {
        if id in completedReads { file := Some(completedReads[id]); }
        completedReads := completedReads - {id};
      }
      pendingReads := pendingReads - {id};
      activeTransfers := activeTransfers - {id};
    }

    method HandleFrame(frame: Frame)
      modifies this
      ensures View() == Step(old(View()), Arrives(frame))
    {
      hide Flatten;
      if frame.Begin? {
        if frame.id in pendingReads {
          var transfer := Transfer(pendingReads[frame.id], frame.size, frame.meta, []);
          activeTransfers := activeTransfers[frame.id := transfer];
        }
        return;
      }
      if frame.id !in activeTransfers { return; }
      var transfer := activeTransfers[frame.id];
      var tooLarge := transfer.pending.maxBytes != 0 && transfer.size > transfer.pending.maxBytes;
      if frame.Chunk? {
        if !tooLarge {
          activeTransfers := activeTransfers[frame.id := transfer.(chunks := transfer.chunks + [frame.payload])];
        }
        return;
      }
      if tooLarge {
        activeTransfers := activeTransfers - {frame.id};
        replies := replies + [TooLarge(frame.id, transfer.pending.place)];
        return;
      }
      EndTransfer(frame.id, transfer);
    }

    method EndTransfer(id: RequestId, transfer: Transfer)
      requires id in activeTransfers && activeTransfers[id] == transfer && !Oversized(transfer)
      modifies this
      ensures View() == Finish(old(View()), id, Verdict(id, transfer))
    {
      hide Flatten;
      var received := TotalBytes(transfer.chunks);
      if received != transfer.size {
        activeTransfers := activeTransfers - {id};
        replies := replies + [Incomplete(id, transfer.size, received)];
        return;
      }
      var bytes := ConcatByteChunks(transfer.chunks, transfer.size);
      assert bytes[..] == Flatten(transfer.chunks);
      activeTransfers := activeTransfers - {id};
      completedReads := completedReads[id := File(bytes[..], transfer.pending.place, transfer.meta)];
      replies := replies + [Delivered(id, transfer.pending.place)];
    }
  }

  method TotalBytes(chunks: seq<Bytes>) returns (total: nat)
    ensures total == |Flatten(chunks)|
  {
    total := 0;
    for i := 0 to |chunks|
      invariant total == |Flatten(chunks[..i])|
    {
      FlattenPrefix(chunks, i);
      total := total + |chunks[i]|;
    }
    assert chunks[..|chunks|] == chunks;
  }
}
