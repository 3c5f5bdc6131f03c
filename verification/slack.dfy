/**
 * The Slack log backend: a pool of log records and a periodic step that, when
 * the pool is not empty, takes the whole pool at once and sends one text
 * block holding a formatted line per record.
 */
module Slack {

  import opened Wrappers
  import opened LogMessage

  const Fence: string := "```"

  /** `prefix[time][level][file:line] msg` followed by a newline. */
  function FormatLine(msgPrefix: string, m: Message): (line: string)
    ensures |line| > |msgPrefix| && line[..|msgPrefix|] == msgPrefix
    ensures line[|line| - 1] == '\n'
  {
    msgPrefix + "[" + m.time + "][" + m.level + "][" + Location(m) + "] " + m.msg + "\n"
  }

  /** The text of a batch: one formatted line per record, in pool order. */
  function BatchText(msgPrefix: string, batch: seq<Message>): (text: string)
    ensures text == "" <==> batch == []
    ensures batch != [] ==> text[|text| - 1] == '\n'
  {
    if batch == [] then "" else FormatLine(msgPrefix, batch[0]) + BatchText(msgPrefix, batch[1..])
  }

  /** Formatting a batch distributes over splitting it. */
  lemma {:induction false} BatchTextAppend(msgPrefix: string, a: seq<Message>, b: seq<Message>)
    ensures BatchText(msgPrefix, a + b) == BatchText(msgPrefix, a) + BatchText(msgPrefix, b)
  {
    if a == [] {
      assert a + b == b;
    } else {
      assert (a + b)[0] == a[0];
      assert (a + b)[1..] == a[1..] + b;
      BatchTextAppend(msgPrefix, a[1..], b);
    }
  }

  /**
   * Record i's line sits between the lines of the records before it and those
   * after it.
   */
  lemma BatchTextAt(msgPrefix: string, batch: seq<Message>, i: nat)
    requires i < |batch|
    ensures BatchText(msgPrefix, batch)
      == BatchText(msgPrefix, batch[..i]) + FormatLine(msgPrefix, batch[i]) + BatchText(msgPrefix, batch[i + 1..])
  {
    assert batch == batch[..i] + batch[i..];
    BatchTextAppend(msgPrefix, batch[..i], batch[i..]);
    assert batch[i..][1..] == batch[i + 1..];
  }

  /** Formatting one more record appends exactly its line. */
  lemma BatchTextSnoc(msgPrefix: string, batch: seq<Message>, i: nat)
    requires i < |batch|
    ensures BatchText(msgPrefix, batch[..i + 1]) == BatchText(msgPrefix, batch[..i]) + FormatLine(msgPrefix, batch[i])
  {
    assert batch[..i + 1] == batch[..i] + [batch[i]];
    BatchTextAppend(msgPrefix, batch[..i], [batch[i]]);
    assert BatchText(msgPrefix, [batch[i]]) == FormatLine(msgPrefix, batch[i]) + "";
  }

  /** The payload sent to the webhook: the text fenced by triple backticks on both sides. */
  function Payload(text: string): (p: string)
    ensures |p| == |text| + 6
    ensures p[..3] == Fence && p[|p| - 3..] == Fence && p[3..|p| - 3] == text
  {
    Fence + text + Fence
  }

  /** The loop of the sender step that accumulates the batch text record by record. */
  method FormatBatch(msgPrefix: string, batch: seq<Message>) returns (text: string)
    ensures text == BatchText(msgPrefix, batch)
  {
    text := "";
    var i := 0;
    while i < |batch|
      invariant i <= |batch|
      invariant text == BatchText(msgPrefix, batch[..i])
    {
      BatchTextSnoc(msgPrefix, batch, i);
      text := text + FormatLine(msgPrefix, batch[i]);
      i := i + 1;
    }
    assert batch[..i] == batch;
  }

  class SlackBackend {
    const webhookUrl: string
    const msgPrefix: string
    /** Records waiting to be sent, oldest first. */
    var pool: seq<Message>

    /** `NewSlackBackend`, without starting the sender loop. */
    constructor (webhookUrl: string, msgPrefix: string)
      ensures this.webhookUrl == webhookUrl && this.msgPrefix == msgPrefix
      ensures pool == []
    {
      this.webhookUrl := webhookUrl;
      this.msgPrefix := msgPrefix;
      pool := [];
    }

    method InfoDepth(depth: int, msg: string, now: string, stack: CallStack)
      modifies this
      ensures pool == old(pool) + [NewMessage("info", msg, now, stack(depth + 1))]
    {
      PushMessage(depth + 1, "info", msg, now, stack);
    }

    method WarningDepth(depth: int, msg: string, now: string, stack: CallStack)
      modifies this
      ensures pool == old(pool) + [NewMessage("warn", msg, now, stack(depth + 1))]
    {
      PushMessage(depth + 1, "warn", msg, now, stack);
    }

    method ErrorDepth(depth: int, msg: string, now: string, stack: CallStack)
      modifies this
      ensures pool == old(pool) + [NewMessage("error", msg, now, stack(depth + 1))]
    {
      PushMessage(depth + 1, "error", msg, now, stack);
    }

    /** Appends one record for the caller `depth` frames up; `now` is the current time. */
    method PushMessage(depth: int, level: string, msg: string, now: string, stack: CallStack)
      modifies this
      ensures pool == old(pool) + [NewMessage(level, msg, now, stack(depth))]
    {
      var message := NewMessage(level, msg, now, stack(depth));
      pool := pool + [message];
    }

    /**
     * One pass of the sender loop: with an empty pool nothing is sent;
     * otherwise the whole pool is taken, the pool is left empty, and the
     * fenced batch text is returned for sending.
     */
    method FlushOnce() returns (sent: Option<string>)
      modifies this
      ensures pool == []
      ensures old(pool) == [] <==> sent == None
      ensures old(pool) != [] ==> sent == Some(Payload(BatchText(msgPrefix, old(pool))))
    {
      if |pool| == 0 {
        return None;
      }
      var batch := pool;
      pool := [];
      var text := FormatBatch(msgPrefix, batch);
      sent := Some(Fence + text + Fence);
    }
  }
}
