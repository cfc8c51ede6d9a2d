/** Toast notifications: the `Toast` builder, and the `ToastStack` that
    appends toasts and removes each one when its display time runs out.
    The timer is not modelled as time: each timer's firing is an explicit
    call of the dismissal step with the index the push captured, in
    whatever order the timers fire. */
module Toasts {
  import opened Wrappers

  datatype ToastPosition = TopRight | BottomRight | TopCenter

  /** `ToastPosition::default()`. */
  const DEFAULT_POSITION: ToastPosition := TopRight

  /** `std::time::Duration`: whole seconds and the nanoseconds beyond. */
  datatype Duration = Duration(secs: nat, nanos: nat)

  predicate ValidDuration(d: Duration)
  {
    d.nanos < 1_000_000_000
  }

  function FromSecs(secs: nat): (d: Duration)
    ensures ValidDuration(d) && d.secs == secs && d.nanos == 0
  {
    Duration(secs, 0)
  }

  datatype Toast = Toast(title: string, body: Option<string>, duration: Duration, position: ToastPosition)

  /** `Toast::new`: no body, three seconds, top right. */
  function NewToast(title: string): (t: Toast)
    ensures t.title == title && t.body == None
    ensures t.duration == FromSecs(3) && t.position == DEFAULT_POSITION
  {
    Toast(title, None, FromSecs(3), DEFAULT_POSITION)
  }

  /** `Toast::body`: sets the body and nothing else. */
  function WithBody(t: Toast, body: string): (r: Toast)
    ensures r.body == Some(body)
    ensures r.title == t.title && r.duration == t.duration && r.position == t.position
  {
    t.(body := Some(body))
  }

  /** `Toast::duration`: sets the duration and nothing else. */
  function WithDuration(t: Toast, duration: Duration): (r: Toast)
    ensures r.duration == duration
    ensures r.title == t.title && r.body == t.body && r.position == t.position
  {
    t.(duration := duration)
  }

  /** `Toast::position`: sets the position and nothing else. */
  function WithPosition(t: Toast, position: ToastPosition): (r: Toast)
    ensures r.position == position
    ensures r.title == t.title && r.body == t.body && r.duration == t.duration
  {
    t.(position := position)
  }

  /** The setters touch disjoint fields, so their order does not matter. */
  lemma SettersCommute(t: Toast, body: string, duration: Duration, position: ToastPosition)
    ensures WithBody(WithDuration(t, duration), body) == WithDuration(WithBody(t, body), duration)
    ensures WithBody(WithPosition(t, position), body) == WithPosition(WithBody(t, body), position)
    ensures WithDuration(WithPosition(t, position), duration) == WithPosition(WithDuration(t, duration), position)
  {
  }

  // ---------------------------------------------------------------------
  // The stack

  /** What a timer does when it fires: remove the entry at the captured
      index if the list is still that long; otherwise nothing. Later
      entries shift down one place, keeping their order. */
  function DismissStep(toasts: seq<Toast>, index: nat): (r: seq<Toast>)
    ensures index >= |toasts| ==> r == toasts
    ensures index < |toasts| ==>
      && |r| == |toasts| - 1
      && (forall i :: 0 <= i < index ==> r[i] == toasts[i])
      && (forall i :: index <= i < |r| ==> r[i] == toasts[i + 1])
      && multiset(r) + multiset{toasts[index]} == multiset(toasts)
  {
    if index < |toasts| then
      assert toasts == toasts[..index] + [toasts[index]] + toasts[index + 1..];
      toasts[..index] + toasts[index + 1..]
    else toasts
  }

  /** `ToastStack`. */
  class ToastStack {
    var toasts: seq<Toast>
    var position: ToastPosition

    /** `ToastStack::new`: empty, at the default position. */
    constructor ()
      ensures toasts == [] && position == DEFAULT_POSITION
    {
      toasts := [];
      position := DEFAULT_POSITION;
    }

    /** `with_position`: changes only the position. */
    method SetPosition(position: ToastPosition)
      modifies this
      ensures this.position == position && toasts == old(toasts)
    {
      this.position := position;
    }

    /** `push`: appends the toast and returns the index its timer
        captures, the position of the new last entry. */
    method Push(toast: Toast) returns (index: nat)
      modifies this
      ensures toasts == old(toasts) + [toast]
      ensures index == |old(toasts)| && toasts[index] == toast
      ensures position == old(position)
    {
      toasts := toasts + [toast];
      index := |toasts| - 1;
    }

    /** A timer fires with its captured index. */
    method Dismiss(index: nat)
      modifies this
      ensures toasts == DismissStep(old(toasts), index)
      ensures position == old(position)
    {
      if index < |toasts| {
        toasts := toasts[..index] + toasts[index + 1..];
      }
    }

    /** `clear`: no toasts, same position. */
    method Clear()
      modifies this
      ensures toasts == [] && position == old(position)
    {
      toasts := [];
    }
  }

  /** Timers firing in the given order, each with its captured index. */
  function DismissInOrder(toasts: seq<Toast>, indices: seq<nat>): seq<Toast>
    decreases indices
  {
    if indices == [] then toasts else DismissInOrder(DismissStep(toasts, indices[0]), indices[1..])
  }

  /** Two toasts pushed one after the other capture indices 0 and 1. When
      the first one's timer fires first, the second toast moves to index 0
      and its own timer, holding index 1, finds the list too short: the
      second toast is never dismissed. */
  lemma SecondToastOutlivesItsTimer(a: Toast, b: Toast)
    ensures DismissInOrder([a, b], [0, 1]) == [b]
  {
    var s1 := DismissStep([a, b], 0);
    assert |s1| == 1 && s1[0] == b;
    assert s1 == [b];
    assert DismissStep(s1, 1) == [b];
    var order: seq<nat> := [0, 1];
    assert order[1..] == [1] && order[1..][1..] == [];
    assert DismissInOrder([a, b], order) == DismissInOrder(s1, [1]);
  }

  /** With three toasts, the second timer removes the third toast. */
  lemma SecondTimerRemovesThirdToast(a: Toast, b: Toast, c: Toast)
    ensures DismissInOrder([a, b, c], [0, 1]) == [b]
  {
    FirstOfThreeDismissed(a, b, c);
    SecondOfTwoDismissed(b, c);
    DismissInOrderTwo([a, b, c], 0, 1);
  }

  lemma FirstOfThreeDismissed(a: Toast, b: Toast, c: Toast)
    ensures DismissStep([a, b, c], 0) == [b, c]
  {
    DismissStepSlices([a, b, c], 0);
    assert [a, b, c][..0] + [a, b, c][1..] == [b, c];
  }

  lemma SecondOfTwoDismissed(b: Toast, c: Toast)
    ensures DismissStep([b, c], 1) == [b]
  {
    DismissStepSlices([b, c], 1);
    assert [b, c][..1] + [b, c][2..] == [b];
  }

  /** Two timers firing are two steps. */
  lemma DismissInOrderTwo(toasts: seq<Toast>, first: nat, second: nat)
    ensures DismissInOrder(toasts, [first, second]) == DismissStep(DismissStep(toasts, first), second)
  {
    var order: seq<nat> := [first, second];
    var once := DismissStep(toasts, first);
    assert order[1..] == [second] && order[1..][1..] == [];
    assert DismissInOrder(toasts, order) == DismissInOrder(once, [second]);
    assert DismissInOrder(once, [second]) == DismissInOrder(DismissStep(once, second), []);
  }

  /** A step in range removes the entry at the index from its place. */
  lemma DismissStepSlices(toasts: seq<Toast>, index: nat)
    requires index < |toasts|
    ensures DismissStep(toasts, index) == toasts[..index] + toasts[index + 1..]
  {
  }

  // ---------------------------------------------------------------------
  // Dismissal by identity

  /** A toast with the ticket its timer holds instead of an index. */
  datatype Entry = Entry(ticket: nat, toast: Toast)

  /** Removes the entry holding `ticket`, whatever its position. */
  function DismissTicket(entries: seq<Entry>, ticket: nat): (r: seq<Entry>)
    ensures |r| <= |entries|
    ensures forall e :: e in r <==> e in entries && e.ticket != ticket
  {
    if entries == [] then []
    else if entries[0].ticket == ticket then DismissTicket(entries[1..], ticket)
    else [entries[0]] + DismissTicket(entries[1..], ticket)
  }

  /** With distinct tickets, dismissing the ticket at position `k` removes
      exactly that entry and keeps the others in their order. */
  lemma {:induction false} DismissTicketRemovesOne(entries: seq<Entry>, k: nat)
    requires k < |entries| && DistinctTickets(entries)
    ensures DismissTicket(entries, entries[k].ticket) == entries[..k] + entries[k + 1..]
  {
    var ticket := entries[k].ticket;
    var tail := entries[1..];
    if k == 0 {
      HeadTicketNotInTail(entries);
      DismissTicketMissing(tail, ticket);
      assert entries[..0] + entries[1..] == tail;
    } else {
      assert tail[k - 1] == entries[k];
      DistinctTicketsTail(entries);
      assert entries[0].ticket != ticket;
      DismissTicketRemovesOne(tail, k - 1);
      DismissTicketKeepsHead(entries, ticket);
      RemoveAfterHead(entries, k);
    }
  }

  /** An entry with another ticket at the front stays there. */
  lemma DismissTicketKeepsHead(entries: seq<Entry>, ticket: nat)
    requires entries != [] && entries[0].ticket != ticket
    ensures DismissTicket(entries, ticket) == [entries[0]] + DismissTicket(entries[1..], ticket)
  {
  }

  /** Removing position `k` after the head is removing position `k` of the whole. */
  lemma RemoveAfterHead(entries: seq<Entry>, k: nat)
    requires 0 < k < |entries|
    ensures [entries[0]] + (entries[1..][..k - 1] + entries[1..][k..]) == entries[..k] + entries[k + 1..]
  {
    assert entries[..k] == [entries[0]] + entries[1..][..k - 1];
    assert entries[1..][k..] == entries[k + 1..];
  }

  /** With distinct tickets, no later entry holds the first entry's ticket. */
  lemma HeadTicketNotInTail(entries: seq<Entry>)
    requires entries != [] && DistinctTickets(entries)
    ensures forall e :: e in entries[1..] ==> e.ticket != entries[0].ticket
  {
    forall e | e in entries[1..] ensures e.ticket != entries[0].ticket {
      var j :| 0 <= j < |entries[1..]| && entries[1..][j] == e;
      assert entries[j + 1] == e;
    }
  }

  /** The tickets after the first entry stay distinct. */
  lemma DistinctTicketsTail(entries: seq<Entry>)
    requires entries != [] && DistinctTickets(entries)
    ensures DistinctTickets(entries[1..])
  {
    var tail := entries[1..];
    forall i, j | 0 <= i < j < |tail| ensures tail[i].ticket != tail[j].ticket {
      assert tail[i] == entries[i + 1] && tail[j] == entries[j + 1];
    }
  }

  /** Dismissing a ticket no entry holds changes nothing. */
  lemma {:induction false} DismissTicketMissing(entries: seq<Entry>, ticket: nat)
    requires forall e :: e in entries ==> e.ticket != ticket
    ensures DismissTicket(entries, ticket) == entries
  {
    if entries != [] {
      assert entries[0] in entries;
      assert forall e :: e in entries[1..] ==> e in entries;
      DismissTicketMissing(entries[1..], ticket);
      assert [entries[0]] + entries[1..] == entries;
    }
  }

  predicate TicketsBelow(entries: seq<Entry>, bound: nat)
  {
    forall i :: 0 <= i < |entries| ==> entries[i].ticket < bound
  }

  predicate DistinctTickets(entries: seq<Entry>)
  {
    forall i, j :: 0 <= i < j < |entries| ==> entries[i].ticket != entries[j].ticket
  }

  /** Timers firing in the given order, each with its ticket. */
  function DismissTicketsInOrder(entries: seq<Entry>, tickets: seq<nat>): seq<Entry>
    decreases tickets
  {
    if tickets == [] then entries else DismissTicketsInOrder(DismissTicket(entries, tickets[0]), tickets[1..])
  }

  /** Whatever order the timers fire in, once every entry's timer has fired
      the stack is empty. */
  lemma {:induction false} AllTicketsDismissedEmpties(entries: seq<Entry>, tickets: seq<nat>)
    requires forall e :: e in entries ==> e.ticket in tickets
    ensures DismissTicketsInOrder(entries, tickets) == []
    decreases |tickets|
  {
    if tickets == [] {
      if entries != [] {
        FirstIsMember(entries);
        assert false;
      }
    } else {
      var rest := DismissTicket(entries, tickets[0]);
      forall e | e in rest
        ensures e.ticket in tickets[1..]
      {
        assert e.ticket in tickets && e.ticket != tickets[0];
      }
      AllTicketsDismissedEmpties(rest, tickets[1..]);
    }
  }

  lemma FirstIsMember(entries: seq<Entry>)
    requires entries != []
    ensures entries[0] in entries
  {
  }

  /** The stack with dismissal by ticket. */
  class TicketedToastStack {
    var entries: seq<Entry>
    var nextTicket: nat
    var position: ToastPosition

    ghost predicate Valid()
      reads this
    {
      TicketsBelow(entries, nextTicket) && DistinctTickets(entries)
    }

    constructor ()
      ensures Valid() && entries == [] && position == DEFAULT_POSITION
    {
      entries := [];
      nextTicket := 0;
      position := DEFAULT_POSITION;
    }

    /** Appends the toast under a ticket no other entry holds. */
    method Push(toast: Toast) returns (ticket: nat)
      requires Valid()
      modifies this
      ensures Valid()
      ensures entries == old(entries) + [Entry(ticket, toast)]
      ensures forall e :: e in old(entries) ==> e.ticket != ticket
      ensures position == old(position)
    {
      ticket := nextTicket;
      entries := entries + [Entry(ticket, toast)];
      nextTicket := nextTicket + 1;
    }

    /** A timer fires with its ticket: only that toast goes. */
    method Dismiss(ticket: nat)
      requires Valid()
      modifies this
      ensures Valid()
      ensures entries == DismissTicket(old(entries), ticket)
      ensures position == old(position)
    {
      DismissTicketKeepsTicketsValid(entries, ticket);
      entries := DismissTicket(entries, ticket);
    }
  }

  /** Dismissing a ticket keeps the tickets that remain bounded and
      distinct. */
  lemma {:induction false} DismissTicketKeepsTicketsValid(entries: seq<Entry>, ticket: nat)
    ensures forall b :: TicketsBelow(entries, b) ==> TicketsBelow(DismissTicket(entries, ticket), b)
    ensures DistinctTickets(entries) ==> DistinctTickets(DismissTicket(entries, ticket))
  {
    if entries != [] {
      var tail := entries[1..];
      DismissTicketKeepsTicketsValid(tail, ticket);
      forall b | TicketsBelow(entries, b)
        ensures TicketsBelow(DismissTicket(entries, ticket), b)
      {
        assert TicketsBelow(tail, b) by {
          forall i | 0 <= i < |tail| ensures tail[i].ticket < b {
            assert tail[i] == entries[i + 1];
          }
        }
        var r := DismissTicket(entries, ticket);
        forall i | 0 <= i < |r| ensures r[i].ticket < b {
          assert r[i] in r;
          var k :| 0 <= k < |entries| && entries[k] == r[i];
        }
      }
      if DistinctTickets(entries) {
        assert DistinctTickets(tail) by {
          forall i, j | 0 <= i < j < |tail| ensures tail[i].ticket != tail[j].ticket {
            assert tail[i] == entries[i + 1] && tail[j] == entries[j + 1];
          }
        }
        var r := DismissTicket(entries, ticket);
        if entries[0].ticket != ticket {
          var rt := DismissTicket(tail, ticket);
          assert r == [entries[0]] + rt;
          forall i, j | 0 <= i < j < |r| ensures r[i].ticket != r[j].ticket {
            if i == 0 {
              assert r[j] == rt[j - 1] && rt[j - 1] in rt;
              var k :| 0 <= k < |tail| && tail[k] == rt[j - 1];
              assert entries[k + 1] == tail[k];
            } else {
              assert r[i] == rt[i - 1] && r[j] == rt[j - 1];
            }
          }
        }
      }
    }
  }
}
