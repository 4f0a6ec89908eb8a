/** Properties of the menu flow alone: the transition table row by row, and
    what a run of messages within one stage entry can send. */
module Flow {
  import opened Text
  import opened Session

  /** The four menu options and the silent ignore of anything else. */
  lemma MenuChoices(finalized: bool, ev: Event)
    ensures ev.body == "1" ==> Transition(Menu, finalized, ev) == Reply(Quote, false, [QuotePrompt])
    ensures ev.body == "2" ==> Transition(Menu, finalized, ev) == Reply(CheckIn, false, [CheckInPrompt])
    ensures ev.body == "3" ==> Transition(Menu, finalized, ev) == Reply(Group, true, [GroupText, GroupLink])
    ensures ev.body == "4" ==> Transition(Menu, finalized, ev) == Reply(Instagram, true, [InstagramText, InstagramLink])
    ensures ev.body !in {"1", "2", "3", "4"} ==> Transition(Menu, finalized, ev) == Reply(Menu, finalized, [])
  {
  }

  /** "0" from any stage but the menu returns to the menu, unfinalized, and
      sends the menu, whatever the flag was. */
  lemma ZeroReturnsToMenu(stage: Stage, finalized: bool, ev: Event)
    requires stage != Menu && ev.body == "0"
    ensures Transition(stage, finalized, ev) == Reply(Menu, false, [MenuText])
    ensures Transition(stage, !finalized, ev) == Transition(stage, finalized, ev)
  {
  }

  /** A finalized stage ignores everything but "0". */
  lemma FinalizedStageIgnores(stage: Stage, ev: Event)
    requires stage != Menu && ev.body != "0"
    ensures Transition(stage, true, ev) == Reply(stage, true, [])
  {
  }

  /** The group and Instagram stages never answer anything but "0". */
  lemma LinkStagesIgnore(stage: Stage, finalized: bool, ev: Event)
    requires stage in {Group, Instagram} && ev.body != "0"
    ensures Transition(stage, finalized, ev) == Reply(stage, finalized, [])
  {
  }

  /** The quote hand-off: the first message finalizes the stage and calls the
      agent; a repeat of it (or any other message) sends nothing. */
  lemma QuoteHandOffOnce(ev: Event, again: Event)
    requires ev.body != "0" && again.body != "0"
    ensures Transition(Quote, false, ev) == Reply(Quote, true, [AgentQuote])
    ensures Transition(Quote, true, again) == Reply(Quote, true, [])
  {
  }

  /** The check-in hand-off happens exactly when acceptable media arrives;
      otherwise the stage waits silently. */
  lemma CheckInRule(ev: Event)
    requires ev.body != "0"
    ensures var r := Transition(CheckIn, false, ev);
            (r == Reply(CheckIn, true, [AgentCheckIn])) <==> AcceptsCheckInMedia(ev)
    ensures var r := Transition(CheckIn, false, ev);
            !AcceptsCheckInMedia(ev) <==> r == Reply(CheckIn, false, [])
  {
  }

  /** Examples of the acceptance rule: an image is accepted whatever its
      name, a document on either indicator (the name test ignores case), and
      nothing without media or of another type. */
  lemma CheckInAcceptedExamples(from: Id, body: string)
    ensures AcceptsCheckInMedia(Event(from, body, true, Image, "image/jpeg", ""))
    ensures AcceptsCheckInMedia(Event(from, body, true, Document, "application/pdf", ""))
    ensures AcceptsCheckInMedia(Event(from, body, true, Document, "", "A.PDF"))
  {
    assert OccursAt("application/pdf", "pdf", 12);
    assert Lower("A.PDF") == "a.pdf";
  }

  lemma CheckInRejectedExamples(from: Id, body: string)
    ensures !AcceptsCheckInMedia(Event(from, body, true, Document, "", "a.txt"))
    ensures !AcceptsCheckInMedia(Event(from, body, false, Image, "image/jpeg", "a.pdf"))
    ensures !AcceptsCheckInMedia(Event(from, body, true, OtherType, "application/pdf", "a.pdf"))
  {
    assert Lower("a.txt") == "a.txt";
  }

  /** The flow applied to a run of messages on a live session. */
  function Replay(stage: Stage, finalized: bool, evs: seq<Event>): Reply
    decreases |evs|
  {
    if evs == [] then Reply(stage, finalized, [])
    else
      var first := Transition(stage, finalized, evs[0]);
      var rest := Replay(first.stage, first.finalized, evs[1..]);
      Reply(rest.stage, rest.finalized, first.sent + rest.sent)
  }

  /** How many agent hand-off messages a sequence of outbound messages holds. */
  function Notices(sent: seq<Outbound>): nat
    decreases |sent|
  {
    if sent == [] then 0 else (if IsAgentNotice(sent[0]) then 1 else 0) + Notices(sent[1..])
  }

  lemma {:induction false} NoticesAppend(a: seq<Outbound>, b: seq<Outbound>)
    ensures Notices(a + b) == Notices(a) + Notices(b)
    decreases |a|
  {
    if a == [] {
      assert a + b == b;
    } else {
      assert (a + b)[0] == a[0];
      assert (a + b)[1..] == a[1..] + b;
      NoticesAppend(a[1..], b);
    }
  }

  /** Within one stage entry (no "0"), the stage never changes, the flag
      never goes back to false, and the agent is notified exactly once if the
      run finalizes the stage and never otherwise: at most once per entry,
      however often the triggering message is repeated. */
  lemma {:induction false} AgentNotifiedAtMostOnce(stage: Stage, finalized: bool, evs: seq<Event>)
    requires stage != Menu
    requires forall i :: 0 <= i < |evs| ==> evs[i].body != "0"
    ensures Replay(stage, finalized, evs).stage == stage
    ensures finalized ==> Replay(stage, finalized, evs).finalized
    ensures Notices(Replay(stage, finalized, evs).sent) ==
            if !finalized && Replay(stage, finalized, evs).finalized then 1 else 0
    decreases |evs|
  {
    if evs != [] {
      var first := Transition(stage, finalized, evs[0]);
      AgentNotifiedAtMostOnce(first.stage, first.finalized, evs[1..]);
      NoticesAppend(first.sent, Replay(first.stage, first.finalized, evs[1..]).sent);
      assert Notices(first.sent) == if !finalized && first.finalized then 1 else 0;
    }
  }

  /** The quote stage hands off on the very first message of the entry. */
  lemma {:induction false} QuoteFinalizesOnFirstMessage(evs: seq<Event>)
    requires |evs| > 0
    requires forall i :: 0 <= i < |evs| ==> evs[i].body != "0"
    ensures Replay(Quote, false, evs).finalized
    ensures Notices(Replay(Quote, false, evs).sent) == 1
  {
    AgentNotifiedAtMostOnce(Quote, true, evs[1..]);
    AgentNotifiedAtMostOnce(Quote, false, evs);
  }
}
