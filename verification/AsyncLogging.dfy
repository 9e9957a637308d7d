/** `asyncLogging` as an object: its two sides, each a step of `LogPipeline`. */
module AsyncLogging {
  import opened Options
  import opened LogPipeline
  import Steps = LogPipeline

  class Logger {
    var cur: Option<Buf>
    var prv: Option<Buf>
    var trans: seq<Buf>
    var new1: Option<Buf>
    var new2: Option<Buf>
    var write: seq<Buf>
    var file: seq<string>
    ghost var phase: Phase
    var next: nat

    ghost function View(): State
      reads this
    {
      State(cur, prv, trans, new1, new2, write, phase, file, next)
    }

    constructor ()
      ensures View() == Start() && Inv(View())
    {
      cur, prv, trans := Some(Buf(0, [])), Some(Buf(1, [])), [];
      new1, new2, write, file := Some(Buf(2, [])), Some(Buf(3, [])), [], [];
      phase, next := Idle, 4;
      new;
      StartInv();
    }

    /** A front end's call; touches nothing of the back end's. */
    method Append(rec: string) returns (aborted: bool)
      requires Inv(View())
      modifies this`cur, this`prv, this`trans, this`next
      ensures aborted == (|rec| >= LARGE)
      ensures Inv(View())
      ensures View() == if aborted then old(View()) else Steps.Append(old(View()), rec)
    {
      if |rec| >= LARGE {
        return true;
      }
      AppendInv(View(), rec);
      if HasRoom(cur.value, rec) {
        cur := Some(Put(cur.value, rec));
      } else {
        trans := trans + [cur.value];
        if prv.Some? {
          cur := prv;
          prv := None;
        } else {
          cur := Some(Buf(next, []));
          next := next + 1;
        }
        if HasRoom(cur.value, rec) {
          cur := Some(Put(cur.value, rec));
        }
      }
      return false;
    }

    /** The back end's lock section. */
    method Collect()
      requires Inv(View()) && phase.Idle?
      modifies this`cur, this`prv, this`trans, this`new1, this`new2, this`write, this`phase
      ensures Inv(View()) && View() == Steps.Collect(old(View()))
    {
      CollectInv(View());
      trans := trans + [cur.value];
      cur := new1;
      new1 := None;
      if prv.None? {
        prv := new2;
        new2 := None;
      }
      write, trans := trans, write;
      phase := Loaded;
    }

    /** The rest of a round, without the lock: only the back end's own fields
        change, so front ends may run at any point of it. It is back where the
        next round starts, with an empty write list and both spares. */
    method WriteBatch()
      requires Inv(View()) && phase.Loaded?
      modifies this`new1, this`new2, this`write, this`file, this`phase
      ensures Inv(View()) && phase.Idle? && write == []
      ensures View() == Steps.Refill(WriteAll(Steps.Trim(old(View()))))
    {
      TrimBatch();
      WriteRecords();
      RefillInv(View());
      RefillShape(View());
      hide Inv, Shape, Steps.Refill, WriteAll, Steps.Trim;
      TakeSpares();
    }

    /** The overload rule. */
    method TrimBatch()
      requires Inv(View()) && phase.Loaded?
      modifies this`write, this`phase
      ensures Inv(View()) && phase == Writing(0) && View() == Steps.Trim(old(View()))
    {
      hide Inv;
      TrimInv(View());
      if |write| >= OVERLOAD {
        write := write[..2];
      }
      phase := Writing(0);
    }

    /** The loop over the batch. */
    method WriteRecords()
      requires Inv(View()) && phase == Writing(0)
      modifies this`file, this`phase
      ensures Inv(View()) && phase == Writing(|write|) && View() == WriteAll(old(View()))
    {
      var i := 0;
      hide Inv;
      while i < |write|
        invariant 0 <= i <= |write| && phase == Writing(i) && Inv(View())
        invariant WriteAll(View()) == WriteAll(old(View()))
      {
        WriteOneInv(View());
        file := file + write[i].recs;
        i := i + 1;
        phase := Writing(i);
      }
    }

    method TakeSpares()
      requires Inv(View()) && phase.Writing? && phase.written == |write|
      modifies this`new1, this`new2, this`write, this`phase
      ensures View() == Steps.Refill(old(View()))
    {
      if |write| > 2 {
        write := write[..2];
      }
      if new1.None? {
        new1 := Some(write[|write| - 1].(recs := []));
        write := write[..|write| - 1];
      }
      if new2.None? {
        new2 := Some(write[|write| - 1].(recs := []));
        write := write[..|write| - 1];
      }
      phase := Idle;
    }
  }
}
