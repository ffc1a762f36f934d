/** The `process-emails` edge function: it fetches up to ten pending rows
    of the `email_queue` table, connects to SMTP, tries to send each row
    and marks it sent or failed, and answers with an HTTP status and a
    message. The table is a sequence of rows; the database fetch, the SMTP
    server and the clock are parameters. */
module ProcessEmails {
  import opened Wrappers
  import opened Text

  const BatchLimit: nat := 10

  datatype QueueStatus = Pending | Sent | Failed

  datatype QueueRow = QueueRow(
    id: string, toEmail: string, subject: string, htmlContent: string,
    status: QueueStatus, sentAt: Option<string>, error: Option<string>)

  /** What `smtp.send` did with one row. */
  datatype SendResult = Delivered | Refused(message: string)

  /** The SMTP server as the handler sees it: whether `connectTLS` throws,
      what each send does, whether `close` throws. */
  datatype Smtp = Smtp(
    connectError: Option<string>,
    send: QueueRow -> SendResult,
    closeError: Option<string>)

  datatype ResponseBody = Message(message: string) | ErrorBody(error: string)

  datatype HttpResponse = HttpResponse(status: nat, body: ResponseBody)

  /** One `update(...).eq('id', id)`. */
  datatype RowUpdate = MarkSent(at: string) | MarkFailed(message: string)

  predicate DistinctIds(rows: seq<QueueRow>) {
    forall i, j :: 0 <= i < j < |rows| ==> rows[i].id != rows[j].id
  }

  /** `.select('*').eq('status', 'pending').limit(limit)`, taking pending
      rows in table order. */
  function PendingBatch(rows: seq<QueueRow>, limit: nat): (batch: seq<QueueRow>)
    ensures |batch| <= limit
    ensures forall k :: 0 <= k < |batch| ==> batch[k] in rows && batch[k].status == Pending
    // a batch short of the limit holds every pending row
    ensures |batch| < limit ==> forall r :: r in rows && r.status == Pending ==> r in batch
    ensures DistinctIds(rows) ==> DistinctIds(batch)
  {
    if rows == [] || limit == 0 then []
    else
      var rest := if rows[0].status == Pending then PendingBatch(rows[1..], limit - 1)
                  else PendingBatch(rows[1..], limit);
      if rows[0].status == Pending then
        assert forall k :: 0 <= k < |rest| ==> rest[k] in rows[1..];
        [rows[0]] + rest
      else rest
  }

  /** No pending row, no batch. */
  lemma {:induction false} EmptyBatchMeansNonePending(rows: seq<QueueRow>)
    requires PendingBatch(rows, BatchLimit) == []
    ensures forall r :: r in rows ==> r.status != Pending
  {
  }

  /** The effect of one `update` call on a row: the status, plus the send
      time or the error message; the address, subject and content stay. */
  function ApplyUpdate(row: QueueRow, u: RowUpdate): (r: QueueRow)
    ensures r.id == row.id
    ensures r.toEmail == row.toEmail && r.subject == row.subject && r.htmlContent == row.htmlContent
    ensures u.MarkSent? ==> r.status == Sent && r.sentAt == Some(u.at) && r.error == row.error
    ensures u.MarkFailed? ==> r.status == Failed && r.error == Some(u.message) && r.sentAt == row.sentAt
  {
    match u
    case MarkSent(at) => row.(status := Sent, sentAt := Some(at))
    case MarkFailed(message) => row.(status := Failed, error := Some(message))
  }

  /** The update a row gets once its send has been tried. */
  function UpdateFor(row: QueueRow, smtp: Smtp, now: string): (u: RowUpdate)
    ensures u.MarkSent? <==> smtp.send(row).Delivered?
    ensures u.MarkSent? ==> u.at == now
    ensures u.MarkFailed? ==> smtp.send(row) == Refused(u.message)
  {
    match smtp.send(row)
    case Delivered => MarkSent(now)
    case Refused(message) => MarkFailed(message)
  }

  /** Every row with this id updated, the others as they were. */
  function UpdateWhereId(rows: seq<QueueRow>, id: string, u: RowUpdate): (rows': seq<QueueRow>)
    ensures |rows'| == |rows|
    ensures forall i :: 0 <= i < |rows| ==>
      rows'[i] == if rows[i].id == id then ApplyUpdate(rows[i], u) else rows[i]
  {
    seq(|rows|, i requires 0 <= i < |rows| =>
      if rows[i].id == id then ApplyUpdate(rows[i], u) else rows[i])
  }

  /** The table after the loop has handled every row of `batch`, in order. */
  function Settled(rows: seq<QueueRow>, batch: seq<QueueRow>, smtp: Smtp, now: string): (rows': seq<QueueRow>) {
    if batch == [] then rows
    else
      var last := batch[|batch| - 1];
      UpdateWhereId(Settled(rows, batch[..|batch| - 1], smtp, now), last.id, UpdateFor(last, smtp, now))
  }

  predicate InBatch(id: string, batch: seq<QueueRow>) {
    exists k :: 0 <= k < |batch| && batch[k].id == id
  }

  /** Rows whose id is not in the batch are untouched, and no row is added
      or dropped. */
  lemma {:induction false} SettledOutside(rows: seq<QueueRow>, batch: seq<QueueRow>, smtp: Smtp, now: string)
    ensures |Settled(rows, batch, smtp, now)| == |rows|
    ensures forall i :: 0 <= i < |rows| && !InBatch(rows[i].id, batch) ==>
      Settled(rows, batch, smtp, now)[i] == rows[i]
  {
    if batch != [] {
      var init := batch[..|batch| - 1];
      SettledOutside(rows, init, smtp, now);
    }
  }

  /** Settling keeps every row's id where it was. */
  lemma {:induction false} SettledKeepsIds(rows: seq<QueueRow>, batch: seq<QueueRow>, smtp: Smtp, now: string)
    ensures |Settled(rows, batch, smtp, now)| == |rows|
    ensures forall i :: 0 <= i < |rows| ==> Settled(rows, batch, smtp, now)[i].id == rows[i].id
  {
    if batch != [] {
      SettledKeepsIds(rows, batch[..|batch| - 1], smtp, now);
    }
  }

  /** A row whose id is the id of batch row `k` (ids distinct within the
      batch) ends sent or failed according to its send; one failure does
      not keep any other row from being tried. */
  lemma {:induction false} SettledInside(rows: seq<QueueRow>, batch: seq<QueueRow>, smtp: Smtp, now: string,
                                         i: nat, k: nat)
    requires DistinctIds(batch)
    requires i < |rows| && k < |batch| && rows[i].id == batch[k].id
    ensures |Settled(rows, batch, smtp, now)| == |rows|
    ensures Settled(rows, batch, smtp, now)[i] == ApplyUpdate(rows[i], UpdateFor(batch[k], smtp, now))
  {
    var init := batch[..|batch| - 1];
    var last := batch[|batch| - 1];
    SettledKeepsIds(rows, init, smtp, now);
    if k == |batch| - 1 {
      SettledOutside(rows, init, smtp, now);
      assert !InBatch(rows[i].id, init);
    } else {
      assert DistinctIds(init);
      SettledInside(rows, init, smtp, now, i, k);
      assert last.id != batch[k].id;
    }
  }

  function Processed(n: nat): string {
    "Processed " + NatToString(n) + " emails"
  }

  const NoPendingMessage: string := "No pending emails"

  /** The success message names the number of e-mails processed: two
      different counts never give the same message. */
  lemma {:induction false} ProcessedDeterminesCount(m: nat, n: nat)
    requires Processed(m) == Processed(n)
    ensures m == n
  {
    var dm, dn := NatToString(m), NatToString(n);
    assert |dm| == |dn|;
    assert Processed(m)[10..10 + |dm|] == dm;
    assert Processed(n)[10..10 + |dn|] == dn;
    NatToStringInjective(m, n);
  }

  /** A run that processed rows never answers as one that found none. */
  lemma ProcessedIsNotNoPending(n: nat)
    ensures Processed(n) != NoPendingMessage
  {
    assert |Processed(n)| > |NoPendingMessage|;
  }

  class EmailQueue {
    var rows: seq<QueueRow>

    /** `id` is the table's primary key. */
    ghost predicate Valid()
      reads this
    {
      DistinctIds(rows)
    }

    constructor (rows: seq<QueueRow>)
      requires DistinctIds(rows)
      ensures Valid() && this.rows == rows
    {
      this.rows := rows;
    }

    /** One request to the function. Returns the response and whether an
        SMTP connection was attempted. */
    method Serve(fetchError: Option<string>, smtp: Smtp, now: string)
      returns (response: HttpResponse, connected: bool)
      requires Valid()
      modifies this
      ensures Valid()
      ensures fetchError.Some? ==>
        response == HttpResponse(500, ErrorBody(fetchError.value)) && !connected && rows == old(rows)
      ensures fetchError.None? && PendingBatch(old(rows), BatchLimit) == [] ==>
        response == HttpResponse(200, Message(NoPendingMessage)) && !connected && rows == old(rows)
      ensures fetchError.None? && PendingBatch(old(rows), BatchLimit) != [] ==> connected
      ensures connected && smtp.connectError.Some? ==>
        response == HttpResponse(500, ErrorBody(smtp.connectError.value)) && rows == old(rows)
      ensures connected && smtp.connectError.None? ==>
        && rows == Settled(old(rows), PendingBatch(old(rows), BatchLimit), smtp, now)
        && response == match smtp.closeError
             case Some(e) => HttpResponse(500, ErrorBody(e))
             case None => HttpResponse(200, Message(Processed(|PendingBatch(old(rows), BatchLimit)|)))
    {
      connected := false;
      if fetchError.Some? {
        response := HttpResponse(500, ErrorBody(fetchError.value));
        return;
      }
      var emails := PendingBatch(rows, BatchLimit);
      if |emails| == 0 {
        response := HttpResponse(200, Message(NoPendingMessage));
        return;
      }
      connected := true;
      if smtp.connectError.Some? {
        response := HttpResponse(500, ErrorBody(smtp.connectError.value));
        return;
      }
      for k := 0 to |emails|
        invariant rows == Settled(old(rows), emails[..k], smtp, now)
        invariant DistinctIds(rows)
      {
        var email := emails[k];
        match smtp.send(email) {
          case Delivered =>
            rows := UpdateWhereId(rows, email.id, MarkSent(now));
          case Refused(message) =>
            rows := UpdateWhereId(rows, email.id, MarkFailed(message));
        }
        assert emails[..k + 1][..k] == emails[..k];
        SettledKeepsIds(old(rows), emails[..k + 1], smtp, now);
      }
      assert emails[..|emails|] == emails;
      match smtp.closeError {
        case Some(e) => response := HttpResponse(500, ErrorBody(e));
        case None => response := HttpResponse(200, Message(Processed(|emails|)));
      }
    }
  }

  /** After a run that reached the loop, each batch row is sent or failed
      as its send went, and every other row is as it was. */
  lemma RunOutcome(rows: seq<QueueRow>, smtp: Smtp, now: string, i: nat)
    requires DistinctIds(rows) && i < |rows|
    ensures var after := Settled(rows, PendingBatch(rows, BatchLimit), smtp, now);
      && |after| == |rows|
      && (rows[i] in PendingBatch(rows, BatchLimit) ==>
            after[i] == ApplyUpdate(rows[i], UpdateFor(rows[i], smtp, now))
            && after[i].status == (if smtp.send(rows[i]).Delivered? then Sent else Failed))
      && (rows[i] !in PendingBatch(rows, BatchLimit) ==> after[i] == rows[i])
  {
    var batch := PendingBatch(rows, BatchLimit);
    SettledOutside(rows, batch, smtp, now);
    if rows[i] in batch {
      var k :| 0 <= k < |batch| && batch[k] == rows[i];
      SettledInside(rows, batch, smtp, now, i, k);
    }
  }
}
