/** The two-step rating dialog: how the presenter reacts to an answer, and
    where a whole conversation with the user leads. */
module Rating {
  import opened View

  /** Step numbers of the dialog. */
  const STEP_ONE: int := 1
  const STEP_TWO: int := 2

  /** What the presenter does in reply to an answer: whether it marks the
      popup as seen, and the view calls it makes. */
  datatype Reaction = Reaction(popupSeen: bool, events: seq<ViewEvent>)

  /** The reply to `answer` given at the dialog's `step`. */
  function RatingAnswer(step: int, answer: bool): (r: Reaction)
    ensures r.popupSeen <==> !answer
    ensures !answer ==> r.events == [ShowRating(step, false)]
    ensures answer && step == STEP_ONE ==> r.events == [ShowRating(STEP_TWO, true)]
    ensures answer && step == STEP_TWO ==> r.events == [RedirectToStorePage, ShowRating(STEP_TWO, false)]
    ensures answer && step != STEP_ONE && step != STEP_TWO ==> r.events == []
  {
    if !answer then
      Reaction(true, [ShowRating(step, false)])
    else if step == STEP_ONE then
      Reaction(false, [ShowRating(STEP_TWO, true)])
    else if step == STEP_TWO then
      Reaction(false, [RedirectToStorePage, ShowRating(step, false)])
    else
      Reaction(false, [])
  }

  /** A user answering, in turn, the step the dialog currently shows, starting
      at `step`; the conversation ends when the dialog is dismissed. */
  function Conversation(step: int, answers: seq<bool>): Reaction
    decreases |answers|
  {
    if answers == [] then Reaction(false, [])
    else
      var r := RatingAnswer(step, answers[0]);
      if answers[0] && step == STEP_ONE then
        var rest := Conversation(STEP_TWO, answers[1..]);
        Reaction(rest.popupSeen, r.events + rest.events)
      else
        r
  }

  lemma CountAppend(a: seq<ViewEvent>, b: seq<ViewEvent>, e: ViewEvent)
    ensures Count(a + b, e) == Count(a, e) + Count(b, e)
    decreases |b|
  {
    if b != [] {
      assert (a + b)[..|a + b| - 1] == a + b[..|b| - 1];
      assert (a + b)[|a + b| - 1] == b[|b| - 1];
      CountAppend(a, b[..|b| - 1], e);
    } else {
      assert a + b == a;
    }
  }

  /** From step one: the store page is opened exactly when the user says yes
      twice, and then exactly once; the popup is marked seen exactly when the
      user says no; the dialog ends dismissed after a no or after two yeses. */
  lemma {:induction false} ConversationFromStepOne(answers: seq<bool>)
    ensures var r := Conversation(STEP_ONE, answers);
      var yesYes := |answers| >= 2 && answers[0] && answers[1];
      var saidNo := (|answers| >= 1 && !answers[0]) || (|answers| >= 2 && answers[0] && !answers[1]);
      && Count(r.events, RedirectToStorePage) == (if yesYes then 1 else 0)
      && (r.popupSeen <==> saidNo)
      && (yesYes || saidNo ==> EndsDismissed(r.events))
  {
    if |answers| >= 1 && answers[0] {
      var tail := answers[1..];
      var first := [ShowRating(STEP_TWO, true)];
      var rest := Conversation(STEP_TWO, tail);
      assert Count(first, RedirectToStorePage) == 0 by {
        assert first[..0] == [];
      }
      CountAppend(first, rest.events, RedirectToStorePage);
      if |tail| >= 1 {
        if tail[0] {
          var done := [RedirectToStorePage, ShowRating(STEP_TWO, false)];
          assert rest.events == done;
          assert done[..1] == [RedirectToStorePage] && [RedirectToStorePage][..0] == [];
        } else {
          assert rest.events == [ShowRating(STEP_TWO, false)];
          assert rest.events[..0] == [];
        }
      }
    } else if |answers| >= 1 {
      assert Conversation(STEP_ONE, answers).events == [ShowRating(STEP_ONE, false)];
      assert [ShowRating(STEP_ONE, false)][..0] == [];
    }
  }
}
