/**
 * The applications list page of the web client: the search box and the
 * status filter over the applications the server returned. Lower-casing is
 * modelled on ASCII letters only.
 */
module ApplicationsPage {
  import opened Model
  import opened ClientTypes

  function LowerChar(c: char): char {
    if 'A' <= c <= 'Z' then (c as int + 32) as char else c
  }

  function Lower(s: string): (r: string)
    ensures |r| == |s| && forall i :: 0 <= i < |s| ==> r[i] == LowerChar(s[i])
  {
    if s == [] then [] else [LowerChar(s[0])] + Lower(s[1..])
  }

  /** `hay.includes(needle)`. */
  predicate Includes(hay: string, needle: string) {
    needle <= hay || (hay != [] && Includes(hay[1..], needle))
  }

  /** `needle` stands in `hay` starting at position `i`. */
  predicate OccursAt(hay: string, needle: string, i: int) {
    0 <= i <= |hay| - |needle| && hay[i..i + |needle|] == needle
  }

  /** Dropping the haystack's first character moves every occurrence one position left. */
  lemma OccursShift(hay: string, needle: string, i: int)
    requires hay != [] && 0 <= i
    ensures OccursAt(hay[1..], needle, i) <==> OccursAt(hay, needle, i + 1)
  {
    if i <= |hay| - 1 - |needle| {
      assert hay[1..][i..i + |needle|] == hay[i + 1..i + 1 + |needle|];
    }
  }

  /** `includes` finds the needle at some position of the haystack, and only then. */
  lemma {:induction false} IncludesAtSomePosition(hay: string, needle: string)
    ensures Includes(hay, needle) <==> exists i :: OccursAt(hay, needle, i)
  {
    if needle <= hay {
      assert OccursAt(hay, needle, 0);
    } else if hay != [] {
      IncludesAtSomePosition(hay[1..], needle);
      assert !OccursAt(hay, needle, 0);
      if exists i :: OccursAt(hay, needle, i) {
        var i :| OccursAt(hay, needle, i);
        OccursShift(hay, needle, i - 1);
      }
      if exists i :: OccursAt(hay[1..], needle, i) {
        var i :| OccursAt(hay[1..], needle, i);
        OccursShift(hay, needle, i);
      }
    } else {
      assert forall i :: !OccursAt(hay, needle, i);
    }
  }

  predicate MatchesSearch(card: Card, term: string) {
    var t := Lower(term);
    Includes(Lower(card.title), t) || Includes(Lower(card.company), t) || Includes(Lower(card.position), t)
  }

  predicate MatchesStatus(card: Card, filter: string) {
    filter == "all" || card.status == filter
  }

  predicate Shown(card: Card, term: string, filter: string) {
    MatchesSearch(card, term) && MatchesStatus(card, filter)
  }

  /** `sub` is `full` with some elements left out, the rest in their order. */
  predicate IsSubsequence<T(==)>(sub: seq<T>, full: seq<T>)
    decreases |full|
  {
    if sub == [] then true
    else if full == [] then false
    else if sub[0] == full[0] then IsSubsequence(sub[1..], full[1..])
    else IsSubsequence(sub, full[1..])
  }

  function FilterCards(cards: seq<Card>, term: string, filter: string): (shown: seq<Card>)
    ensures IsSubsequence(shown, cards)
    ensures forall i :: 0 <= i < |shown| ==> Shown(shown[i], term, filter)
    ensures forall c :: multiset(shown)[c] == if Shown(c, term, filter) then multiset(cards)[c] else 0
  {
    if cards == [] then []
    else
      assert cards == [cards[0]] + cards[1..];
      var rest := FilterCards(cards[1..], term, filter);
      if Shown(cards[0], term, filter) then [cards[0]] + rest
      else
        assert rest != [] ==> rest[0] != cards[0];
        rest
  }

  /** `filteredApplications`: nothing before the data arrives, the matching cards after. */
  function FilteredApplications(data: Option<seq<Card>>, term: string, filter: string): (shown: seq<Card>)
    ensures data.None? ==> shown == []
    ensures data.Some? ==> IsSubsequence(shown, data.value)
    ensures forall i :: 0 <= i < |shown| ==> MatchesSearch(shown[i], term)
    ensures filter != "all" ==> forall i :: 0 <= i < |shown| ==> shown[i].status == filter
    ensures |shown| <= Total(data)
  {
    if data.None? then []
    else
      var shown := FilterCards(data.value, term, filter);
      SubsequenceNoLonger(shown, data.value);
      shown
  }

  /** `applicationsData?.length || 0`, the "of Y" in "Showing X of Y". */
  function Total(data: Option<seq<Card>>): nat {
    if data.None? then 0 else |data.value|
  }

  lemma {:induction false} SubsequenceNoLonger<T>(sub: seq<T>, full: seq<T>)
    requires IsSubsequence(sub, full)
    ensures |sub| <= |full|
    decreases |full|
  {
    if sub != [] {
      if sub[0] == full[0] {
        SubsequenceNoLonger(sub[1..], full[1..]);
      } else {
        SubsequenceNoLonger(sub, full[1..]);
      }
    }
  }

  /** With an empty search and the filter at `all`, every card is shown, in order. */
  lemma {:induction false} EmptySearchShowsAll(cards: seq<Card>)
    ensures FilteredApplications(Some(cards), "", "all") == cards
  {
    ShowsAll(cards);
  }

  lemma {:induction false} ShowsAll(cards: seq<Card>)
    ensures FilterCards(cards, "", "all") == cards
  {
    if cards != [] {
      assert Shown(cards[0], "", "all") by {
        assert Lower("") == "";
        assert Includes(Lower(cards[0].title), "");
      }
      ShowsAll(cards[1..]);
      assert cards == [cards[0]] + cards[1..];
    }
  }
}
