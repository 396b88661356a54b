/** Pull pages: each channel's progress and the records changed in any of them. */
module Pages {
  import opened Authorities

  const PULL_CHANGES: nat := 50

  datatype Range = Range(from: nat, to: nat, head: nat)

  datatype Page = Page(cursors: map<string, Range>, changes: seq<Authority>)

  predicate Continues(range: Range) {
    range.to < range.head
  }

  /** Counters are unbounded here; the source also caps them at the safe integer range. */
  predicate ValidPage(page: Page) {
    ValidRanges(page.cursors) && |page.changes| <= PULL_CHANGES * |page.cursors| && ValidChanges(page.changes)
  }

  predicate ValidRanges(cursors: map<string, Range>) {
    cursors != map[] && forall c :: c in cursors ==> c != "" && cursors[c].from <= cursors[c].to <= cursors[c].head
  }

  predicate ValidChanges(changes: seq<Authority>) {
    && (forall i :: 0 <= i < |changes| ==> changes[i].stamp > 0 && (changes[i].error.Some? ==> changes[i].state.None?))
    && UniqueKeys(changes)
  }

  /** A channel moves a subscribed cursor when the page starts at or before it and ends beyond it. */
  predicate Moves(cursors: map<string, nat>, channel: string, range: Range) {
    channel in cursors && range.to > cursors[channel] && range.from <= cursors[channel]
  }

  predicate Gap(cursors: map<string, nat>, channel: string, range: Range) {
    channel in cursors && range.to > cursors[channel] && range.from > cursors[channel]
  }

  predicate HasGap(cursors: map<string, nat>, page: Page) {
    exists c :: c in page.cursors && Gap(cursors, c, page.cursors[c])
  }

  function Moving(cursors: map<string, nat>, page: Page): map<string, nat> {
    map c | c in page.cursors && Moves(cursors, c, page.cursors[c]) :: page.cursors[c].to
  }

  /** Some channel's page starts beyond where the client stands, and reaches further. */
  predicate LeavesGap(cursors: map<string, nat>, page: Page) {
    exists c :: c in cursors && c in page.cursors
                && cursors[c] < page.cursors[c].from && cursors[c] < page.cursors[c].to
  }

  /** Every cursor the page starts at or before and reaches beyond is at its end, every other where it was. */
  predicate MovedTo(cursors: map<string, nat>, page: Page, cursors': map<string, nat>) {
    && cursors'.Keys == cursors.Keys
    && forall c :: c in cursors ==>
         cursors'[c] ==
           if c in page.cursors && page.cursors[c].from <= cursors[c] < page.cursors[c].to then page.cursors[c].to
           else cursors[c]
  }

  lemma MovingMoves(cursors: map<string, nat>, page: Page)
    ensures HasGap(cursors, page) <==> LeavesGap(cursors, page)
    ensures MovedTo(cursors, page, cursors + Moving(cursors, page))
    ensures Moving(cursors, page) == map[] <==> cursors + Moving(cursors, page) == cursors
  {
    if c :| c in cursors && c in page.cursors && cursors[c] < page.cursors[c].from && cursors[c] < page.cursors[c].to {
      assert Gap(cursors, c, page.cursors[c]);
    }
    if c :| c in Moving(cursors, page) {
      assert (cursors + Moving(cursors, page))[c] != cursors[c];
    }
  }
}
