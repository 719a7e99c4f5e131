/**
 * The dashboard of the web client: the four counters, the three most
 * recent applications and the badge tone of each status.
 */
module Dashboard {
  import opened Model
  import opened ClientTypes

  datatype Counters = Counters(total: nat, pending: nat, approved: nat, rejected: nat)

  datatype Tone = Amber | Emerald | Rose | Blue

  /** `cards.filter(app => app.status === status).length`. */
  function CountWithStatus(cards: seq<Card>, status: string): (n: nat)
    ensures n <= |cards|
  {
    if cards == [] then 0
    else (if cards[0].status == status then 1 else 0) + CountWithStatus(cards[1..], status)
  }

  function Statuses(cards: seq<Card>): (r: seq<string>)
    ensures |r| == |cards| && forall i :: 0 <= i < |cards| ==> r[i] == cards[i].status
  {
    if cards == [] then [] else [cards[0].status] + Statuses(cards[1..])
  }

  /** A counter is the number of times its status occurs among the cards. */
  lemma {:induction false} CountIsMultiplicity(cards: seq<Card>, status: string)
    ensures CountWithStatus(cards, status) == multiset(Statuses(cards))[status]
  {
    if cards != [] {
      CountIsMultiplicity(cards[1..], status);
      assert Statuses(cards) == [cards[0].status] + Statuses(cards[1..]);
    }
  }

  /** No card is counted under two statuses. */
  lemma {:induction false} CountsWithinTotal(cards: seq<Card>)
    ensures CountWithStatus(cards, "pending") + CountWithStatus(cards, "approved")
            + CountWithStatus(cards, "rejected") <= |cards|
  {
    if cards != [] {
      CountsWithinTotal(cards[1..]);
    }
  }

  /** The dashboard counters; `|| 0` makes each of them 0 before the data arrives. */
  function Count(data: Option<seq<Card>>): (c: Counters)
    ensures data.None? ==> c == Counters(0, 0, 0, 0)
    ensures data.Some? ==> c.total == |data.value|
    ensures data.Some? ==> c.pending == multiset(Statuses(data.value))["pending"]
    ensures data.Some? ==> c.approved == multiset(Statuses(data.value))["approved"]
    ensures data.Some? ==> c.rejected == multiset(Statuses(data.value))["rejected"]
    ensures c.pending + c.approved + c.rejected <= c.total
  {
    if data.None? then Counters(0, 0, 0, 0)
    else
      var cards := data.value;
      CountsWithinTotal(cards);
      CountIsMultiplicity(cards, "pending");
      CountIsMultiplicity(cards, "approved");
      CountIsMultiplicity(cards, "rejected");
      Counters(|cards|, CountWithStatus(cards, "pending"), CountWithStatus(cards, "approved"),
               CountWithStatus(cards, "rejected"))
  }

  /** `applicationsData?.slice(0, 3)`: the first three cards, or all when fewer. */
  function Recent(data: Option<seq<Card>>): (shown: seq<Card>)
    ensures data.None? ==> shown == []
    ensures data.Some? ==> shown <= data.value
    ensures data.Some? ==> |shown| == if |data.value| < 3 then |data.value| else 3
  {
    if data.None? then []
    else if |data.value| < 3 then data.value
    else data.value[..3]
  }

  /** The badge of a status in the recent list; anything unrecognised is blue. */
  function BadgeTone(status: string): (tone: Tone)
    ensures tone == Amber <==> status == "pending"
    ensures tone == Emerald <==> status == "approved"
    ensures tone == Rose <==> status == "rejected"
    ensures tone == Blue <==> status !in {"pending", "approved", "rejected"}
  {
    if status == "pending" then Amber
    else if status == "approved" then Emerald
    else if status == "rejected" then Rose
    else Blue
  }
}
