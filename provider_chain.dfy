/** The walk along a provider chain: providers are asked in list order and the
    first one that does not return null decides the result (a created driver or
    the exception it threw); when every provider declines, creation fails. */
module ProviderChain {
  import opened Common

  /** Where a walk along a chain stopped. */
  datatype Search =
    | Accepted(index: nat)                 // the provider at index returned a driver
    | Threw(index: nat, error: Failure)    // the provider at index threw
    | Exhausted                            // every provider returned null
  {
    predicate Stopped() { !Exhausted? }
  }

  /** The answer with which a walk stopped at an index. */
  function StopWith(i: nat, a: Answer): (s: Search)
    requires a != Declined
    ensures s.Stopped() && s.index == i
  {
    if a == Created then Accepted(i) else Threw(i, a.error)
  }

  /** Renumbers a walk over a chain's tail as a walk over the whole chain. */
  function Shift(s: Search): (t: Search)
    ensures t.Stopped() == s.Stopped()
    ensures s.Stopped() ==> t.index == s.index + 1
  {
    match s
    case Accepted(i) => Accepted(i + 1)
    case Threw(i, e) => Threw(i + 1, e)
    case Exhausted => Exhausted
  }

  /** The walk over the answers the providers of a chain give, in chain order. */
  function FirstNonDeclined(answers: seq<Answer>): (r: Search)
    ensures r.Stopped() ==> r.index < |answers| && answers[r.index] != Declined
    ensures r.Stopped() ==> r == StopWith(r.index, answers[r.index])
    decreases |answers|
  {
    if answers == [] then Exhausted
    else if answers[0] != Declined then StopWith(0, answers[0])
    else Shift(FirstNonDeclined(answers[1..]))
  }

  /** The outcome a walk reports to its caller: success, the exception of the
      provider that threw, or `exhausted` when every provider declined. */
  function Settle(s: Search, exhausted: Failure): (o: Outcome)
    ensures o.Pass? <==> s.Accepted?
    ensures s.Exhausted? ==> o == Fail(exhausted)
    ensures s.Threw? ==> o == Fail(s.error)
  {
    match s
    case Accepted(_) => Pass
    case Threw(_, e) => Fail(e)
    case Exhausted => Fail(exhausted)
  }

  /** Every provider before the one that decided declined, and the walk is
      exhausted exactly when every provider declined. */
  lemma {:induction false} EarlierProvidersDeclined(answers: seq<Answer>)
    ensures FirstNonDeclined(answers).Stopped() ==>
              forall j :: 0 <= j < FirstNonDeclined(answers).index ==> answers[j] == Declined
    ensures FirstNonDeclined(answers).Exhausted? <==> forall j :: 0 <= j < |answers| ==> answers[j] == Declined
    decreases |answers|
  {
    if answers != [] && answers[0] == Declined {
      var tail := answers[1..];
      EarlierProvidersDeclined(tail);
      assert forall j :: 1 <= j < |answers| ==> answers[j] == tail[j - 1];
    }
  }

  /** Conversely, the first provider that does not decline decides the walk. */
  lemma {:induction false} FirstNonDeclinedAt(answers: seq<Answer>, i: nat)
    requires i < |answers| && answers[i] != Declined
    requires forall j :: 0 <= j < i ==> answers[j] == Declined
    ensures FirstNonDeclined(answers) == StopWith(i, answers[i])
    decreases i
  {
    if i > 0 {
      var tail := answers[1..];
      assert forall j :: 0 <= j < i - 1 ==> tail[j] == answers[j + 1];
      FirstNonDeclinedAt(tail, i - 1);
    }
  }

  /** Providers after the one that decides are not consulted: any chain that
      answers the same up to and including that provider gives the same walk. */
  lemma LaterProvidersNotConsulted(answers: seq<Answer>, other: seq<Answer>)
    requires FirstNonDeclined(answers).Stopped()
    requires FirstNonDeclined(answers).index < |other|
    requires other[..FirstNonDeclined(answers).index + 1] == answers[..FirstNonDeclined(answers).index + 1]
    ensures FirstNonDeclined(other) == FirstNonDeclined(answers)
  {
    var i := FirstNonDeclined(answers).index;
    EarlierProvidersDeclined(answers);
    forall j | 0 <= j <= i
      ensures other[j] == answers[j]
    {
      assert other[j] == other[..i + 1][j];
    }
    FirstNonDeclinedAt(other, i);
  }

  /** A provider put at the head of a chain is asked first: if it answers, it
      decides; if it declines, the rest of the chain decides in its old order. */
  lemma PrependedAnswerFirst(a: Answer, answers: seq<Answer>)
    ensures a != Declined ==> FirstNonDeclined([a] + answers) == StopWith(0, a)
    ensures a == Declined ==> FirstNonDeclined([a] + answers) == Shift(FirstNonDeclined(answers))
  {
    assert ([a] + answers)[1..] == answers;
  }
}
