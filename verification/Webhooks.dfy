/** The webhooks service: fast receipt of provider events, the worker that processes them, and the
    admin retry. Every method runs without interruption on the shared database. */
module Webhooks {
  import opened Wrappers
  import opened PaymentFlow
  import opened Payments
  import L = Ledger

  class WebhooksService {
    const db: Database

    constructor (db: Database)
      ensures this.db == db
    {
      this.db := db;
    }

    method ReceiveWebhook(key: EventKey, kind: EventKind, signed: bool) returns (fault: Option<L.Fault>, queued: bool)
      modifies db
      ensures Reflects(old(db.View()), Receive(old(db.View()), key, kind, signed), fault, db.View())
      ensures queued <==> signed && key !in old(db.events)
    {
      if !signed { return Some(L.BadRequest), false; }
      if key in db.events { return None, false; }
      db.events := db.events[key := EventRow(kind, Queued, None)];
      return None, true;
    }

    /** The worker's processing of one event; found is the payment the event names. */
    method ProcessWebhookEvent(key: EventKey, found: Option<int>, terms: Terms)
      modifies db
      ensures db.View() == Finish(old(db.View()), Agent(Job(key), StartJob(old(db.View()), key)), found, terms)
    {
      ghost var s := db.View();
      if key !in db.events { return; }
      if db.events[key].status == Processed { return; }
      db.events := db.events[key := db.events[key].(status := InProgress)];
      ghost var s1 := db.View();
      assert Finish(s, Agent(Job(key), Claimed), found, terms) == Finish(s1, Agent(Job(key), Fetching), found, terms);
      if db.events[key].kind == OtherEvent {
        db.events := db.events[key := db.events[key].(status := Ignored)];
      } else if found == None || !Known(db.View(), found.value) {
        db.events := db.events[key := db.events[key].(status := Errored)];
      } else if db.events[key].kind == CaptureEvent {
        ProcessPaymentCaptured(key, found.value, terms);
      } else {
        ProcessRefund(key, found.value, terms);
      }
    }

    method ProcessPaymentCaptured(key: EventKey, p: int, terms: Terms)
      requires key in db.events && db.events[key].kind == CaptureEvent && Known(db.View(), p)
      modifies db
      ensures db.View() == Finish(old(db.View()), Agent(Job(key), Fetching), Some(p), terms)
    {
      ghost var s := db.View();
      if db.books.payments[p].status == Bookings.Captured {
        db.events := db.events[key := db.events[key].(status := Processed, payment := Some(p))];
        FinishDone(db.View(), Job(key), Some(p), terms);
        return;
      }
      assert Finish(s, Agent(Job(key), Fetching), Some(p), terms)
          == Finish(s, Agent(Job(key), Capturing(p)), Some(p), terms);
      var changed, won := db.Capture(p, UnlessCaptured);
      ghost var s1 := db.View();
      assert Finish(s, Agent(Job(key), Capturing(p)), Some(p), terms)
          == Finish(s1, Agent(Job(key), Recording(p, won)), Some(p), terms);
      var recorded := L.RecordPayment(db.books, p, db.books.payments[p].org, db.books.payments[p].amount, terms.bp,
                                      terms.fee, terms.at);
      db.books := recorded.value;
      ghost var s2 := db.View();
      assert Finish(s1, Agent(Job(key), Recording(p, won)), Some(p), terms)
          == Finish(s2, Agent(Job(key), Marking(p, won)), Some(p), terms);
      db.events := db.events[key := db.events[key].(status := Processed, payment := Some(p))];
      ghost var s3 := db.View();
      assert Finish(s2, Agent(Job(key), Marking(p, won)), Some(p), terms)
          == Finish(s3, Agent(Job(key), Announcing(p, won)), Some(p), terms);
      FinishAnnouncing(s3, Job(key), p, won, Some(p), terms);
      db.AnnounceCapture(p, won);
    }

    method ProcessRefund(key: EventKey, p: int, terms: Terms)
      requires key in db.events && db.events[key].kind == RefundEvent && Known(db.View(), p)
      modifies db
      ensures db.View() == Finish(old(db.View()), Agent(Job(key), Fetching), Some(p), terms)
    {
      ghost var s := db.View();
      if db.books.payments[p].status == Bookings.Refunded {
        db.events := db.events[key := db.events[key].(status := Processed, payment := Some(p))];
        FinishDone(db.View(), Job(key), Some(p), terms);
        return;
      }
      assert Finish(s, Agent(Job(key), Fetching), Some(p), terms)
          == Finish(s, Agent(Job(key), Refunding(p)), Some(p), terms);
      db.books := db.books.(payments := db.books.payments[p := db.books.payments[p].(status := Bookings.Refunded)]);
      ghost var s1 := db.View();
      assert Finish(s, Agent(Job(key), Refunding(p)), Some(p), terms)
          == Finish(s1, Agent(Job(key), RecordingRefund(p)), Some(p), terms);
      var recorded := L.RecordRefund(db.books, p, db.books.payments[p].org, db.books.payments[p].amount, terms.at);
      if recorded.Err? {
        db.events := db.events[key := db.events[key].(status := Errored)];
        FinishDone(db.View(), Job(key), Some(p), terms);
        return;
      }
      db.books := recorded.value;
      ghost var s2 := db.View();
      assert Finish(s1, Agent(Job(key), RecordingRefund(p)), Some(p), terms)
          == Finish(s2, Agent(Job(key), MarkingRefund(p)), Some(p), terms);
      FinishMarkingRefund(s2, Job(key), p, Some(p), terms);
      db.events := db.events[key := db.events[key].(status := Processed, payment := Some(p))];
      db.notices := db.notices + [PaymentRefunded(p, db.books.payments[p].org, db.books.payments[p].amount)];
    }

    method RetryWebhookEvent(key: EventKey) returns (fault: Option<L.Fault>)
      modifies db
      ensures Reflects(old(db.View()), Retry(old(db.View()), key), fault, db.View())
    {
      if key !in db.events { return Some(L.NotFound); }
      db.events := db.events[key := db.events[key].(status := Queued)];
      return None;
    }
  }
}
