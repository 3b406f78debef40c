/** The events page of app/events/page.tsx: the mock events split at `today`
    (a parameter) into upcoming and past. */
module EventsPage {
  import opened Seqs
  import opened Types

  function Upcoming(evs: seq<Event>, today: int): seq<Event>
  {
    Filter(evs, (e: Event) => e.startDate >= today)
  }

  function Past(evs: seq<Event>, today: int): seq<Event>
  {
    Filter(evs, (e: Event) => e.startDate < today)
  }

  /** The upcoming tab's badge. */
  function UpcomingBadge(evs: seq<Event>, today: int): nat
  {
    |Upcoming(evs, today)|
  }

  /** Every event is in exactly one of the two lists, each keeps the order, and
      their sizes add up to the whole. */
  lemma Partition(evs: seq<Event>, today: int)
    ensures forall e :: e in Upcoming(evs, today) <==> e in evs && e.startDate >= today
    ensures forall e :: e in Past(evs, today) <==> e in evs && e.startDate < today
    ensures forall e :: e in evs ==> (e in Upcoming(evs, today) <==> e !in Past(evs, today))
    ensures IsSubsequence(Upcoming(evs, today), evs) && IsSubsequence(Past(evs, today), evs)
    ensures UpcomingBadge(evs, today) + |Past(evs, today)| == |evs|
  {
    forall e ensures (e in Upcoming(evs, today) <==> e in evs && e.startDate >= today)
                  && (e in Past(evs, today) <==> e in evs && e.startDate < today) {
      FilterMembership(evs, (e: Event) => e.startDate >= today, e);
      FilterMembership(evs, (e: Event) => e.startDate < today, e);
    }
    FilterIsSubsequence(evs, (e: Event) => e.startDate >= today);
    FilterIsSubsequence(evs, (e: Event) => e.startDate < today);
    FilterComplement(evs, (e: Event) => e.startDate >= today, (e: Event) => e.startDate < today);
  }
}
