/** The `useApps` hook (hooks/useApps.ts): three state cells, `apps`,
    `loading` and `error`, updated step by step by `fetchApps`. The backend
    query is not modelled; its reply is the `Outcome` handed to `Complete`. */
module UseApps {
  import opened Wrappers
  import opened Types

  /** A value that can reach the `catch` block: an `Error` object with its
      message, or some other thrown value. */
  datatype Thrown = ErrorValue(message: string) | NonErrorValue

  /** How the awaited query ends: a reply `{data, error}` (either may be
      null), or a rejection that throws before any reply is read. */
  datatype Outcome =
    | Replied(data: Option<seq<App>>, error: Option<Thrown>)
    | Rejected(thrown: Thrown)

  const FALLBACK_MESSAGE := "An error occurred"

  /** The value that reaches `catch`, if any: the reply's `error` is
      rethrown (hooks/useApps.ts:22-24), a rejection is thrown as is. */
  function Caught(outcome: Outcome): (t: Option<Thrown>)
    ensures t == None <==> outcome.Replied? && outcome.error == None
  {
    match outcome
    case Replied(_, error) => error
    case Rejected(thrown) => Some(thrown)
  }

  /** The text recorded for a caught value: an `Error`'s own message, and
      the fixed fallback for anything else. */
  function Message(t: Thrown): (m: string)
    ensures t.ErrorValue? ==> m == t.message
    ensures t.NonErrorValue? ==> m == FALLBACK_MESSAGE
  {
    match t
    case ErrorValue(message) => message
    case NonErrorValue => FALLBACK_MESSAGE
  }

  /** The list `setApps` receives, if any: non-null data of a reply that
      carries no error. */
  function Delivered(outcome: Outcome): (d: Option<seq<App>>)
    ensures d != None <==> Caught(outcome) == None && outcome.data != None
    ensures d != None ==> d == outcome.data
  {
    if outcome.Replied? && outcome.error == None then outcome.data else None
  }

  /** `apps` after one completed fetch. A successful reply with data
      replaces the list wholesale, in the order received; a reply without
      data, or a failure, leaves it alone. */
  function NextApps(apps: seq<App>, outcome: Outcome): (r: seq<App>)
    ensures outcome.Replied? && outcome.error == None && outcome.data != None ==>
      r == outcome.data.value
    ensures outcome.Replied? && outcome.error == None && outcome.data == None ==> r == apps
    ensures Caught(outcome) != None ==> r == apps
  {
    match Delivered(outcome)
    case Some(data) => data
    case None => apps
  }

  /** `error` after one completed fetch: a failure records the thrown
      message (or the fallback); a success leaves the previous value, since
      nothing resets it, so a recorded error stays recorded. */
  function NextError(error: Option<string>, outcome: Outcome): (r: Option<string>)
    ensures outcome.Replied? && outcome.error != None ==>
      r == Some(Message(outcome.error.value))
    ensures outcome.Rejected? ==> r == Some(Message(outcome.thrown))
    ensures Caught(outcome) == None ==> r == error
    ensures error != None ==> r != None
  {
    match Caught(outcome)
    case Some(t) => Some(Message(t))
    case None => error
  }

  /** The three state cells of one mounted hook. */
  class AppsState {
    var apps: seq<App>
    var loading: bool
    var error: Option<string>

    /** The initial `useState` values (hooks/useApps.ts:6-8). */
    constructor ()
      ensures apps == [] && loading && error == None
    {
      apps := [];
      loading := true;
      error := None;
    }

    /** Entering `fetchApps` marks the hook as loading and changes nothing else. */
    method Begin()
      modifies this
      ensures loading
      ensures apps == old(apps) && error == old(error)
    {
      loading := true;
    }

    /** The rest of `fetchApps` once the query has answered: the `try` body,
      the `catch` and the `finally`. */
    method Complete(outcome: Outcome)
      modifies this
      ensures !loading
      ensures apps == NextApps(old(apps), outcome)
      ensures error == NextError(old(error), outcome)
    {
      match outcome {
        case Replied(data, replyError) =>
          if replyError.Some? {
            error := Some(Message(replyError.value));
          } else if data.Some? {
            apps := data.value;
          }
        case Rejected(thrown) =>
          error := Some(Message(thrown));
      }
      loading := false;
    }

    /** One whole `fetchApps` call, with the query's outcome given. */
    method FetchApps(outcome: Outcome)
      modifies this
      ensures !loading
      ensures apps == NextApps(old(apps), outcome)
      ensures error == NextError(old(error), outcome)
    {
      Begin();
      Complete(outcome);
    }

    /** `refetch` is `fetchApps` itself. */
    method Refetch(outcome: Outcome)
      modifies this
      ensures !loading
      ensures apps == NextApps(old(apps), outcome)
      ensures error == NextError(old(error), outcome)
    {
      FetchApps(outcome);
    }
  }

  // -----------------------------------------------------------------------
  // Properties of a sequence of fetches (the mount fetch and the refetches,
  // each completing before the next begins)
  // -----------------------------------------------------------------------

  /** `apps` after a run of completed fetches: the starting list, or the
      data one of the fetches delivered. */
  function AppsAfter(apps: seq<App>, outcomes: seq<Outcome>): (r: seq<App>)
    ensures r == apps || exists i :: 0 <= i < |outcomes| && Delivered(outcomes[i]) == Some(r)
    decreases |outcomes|
  {
    if outcomes == [] then apps
    else
      var r := AppsAfter(NextApps(apps, outcomes[0]), outcomes[1..]);
      assert forall i :: 1 <= i < |outcomes| ==> outcomes[i] == outcomes[1..][i - 1];
      r
  }

  /** `error` after a run of completed fetches: the starting value, or the
      message of one of the failures; never null once it was not. */
  function ErrorAfter(error: Option<string>, outcomes: seq<Outcome>): (r: Option<string>)
    ensures r == error ||
      (exists i :: 0 <= i < |outcomes| && Caught(outcomes[i]) != None && r == Some(Message(Caught(outcomes[i]).value)))
    ensures error != None ==> r != None
    decreases |outcomes|
  {
    if outcomes == [] then error
    else
      var r := ErrorAfter(NextError(error, outcomes[0]), outcomes[1..]);
      assert forall i :: 1 <= i < |outcomes| ==> outcomes[i] == outcomes[1..][i - 1];
      r
  }

  /** Reference definition read from the end: the data of the last fetch that
      delivered any, or the starting list when none did. */
  function LastDelivered(apps: seq<App>, outcomes: seq<Outcome>): seq<App>
  {
    if outcomes == [] then apps
    else match Delivered(outcomes[|outcomes| - 1])
      case Some(data) => data
      case None => LastDelivered(apps, outcomes[..|outcomes| - 1])
  }

  /** Reference definition read from the end: the message of the last
      failure, or the starting value when nothing failed. */
  function LastFailure(error: Option<string>, outcomes: seq<Outcome>): Option<string>
  {
    if outcomes == [] then error
    else match Caught(outcomes[|outcomes| - 1])
      case Some(t) => Some(Message(t))
      case None => LastFailure(error, outcomes[..|outcomes| - 1])
  }

  lemma {:induction false} AppsAfterAppend(apps: seq<App>, outcomes: seq<Outcome>, last: Outcome)
    ensures AppsAfter(apps, outcomes + [last]) == NextApps(AppsAfter(apps, outcomes), last)
    decreases |outcomes|
  {
    if outcomes != [] {
      assert (outcomes + [last])[1..] == outcomes[1..] + [last];
      AppsAfterAppend(NextApps(apps, outcomes[0]), outcomes[1..], last);
    }
  }

  lemma {:induction false} ErrorAfterAppend(error: Option<string>, outcomes: seq<Outcome>, last: Outcome)
    ensures ErrorAfter(error, outcomes + [last]) == NextError(ErrorAfter(error, outcomes), last)
    decreases |outcomes|
  {
    if outcomes != [] {
      assert (outcomes + [last])[1..] == outcomes[1..] + [last];
      ErrorAfterAppend(NextError(error, outcomes[0]), outcomes[1..], last);
    }
  }

  /** After any run of fetches the list is the one the last delivering fetch
      brought, or the starting list when none brought data. */
  lemma {:induction false} AppsAfterIsLastDelivered(apps: seq<App>, outcomes: seq<Outcome>)
    ensures AppsAfter(apps, outcomes) == LastDelivered(apps, outcomes)
  {
    if outcomes != [] {
      var init := outcomes[..|outcomes| - 1];
      var last := outcomes[|outcomes| - 1];
      assert outcomes == init + [last];
      AppsAfterAppend(apps, init, last);
      AppsAfterIsLastDelivered(apps, init);
    }
  }

  /** After any run of fetches the error is the message of the last failure,
      or the starting value when nothing failed. */
  lemma {:induction false} ErrorAfterIsLastFailure(error: Option<string>, outcomes: seq<Outcome>)
    ensures ErrorAfter(error, outcomes) == LastFailure(error, outcomes)
  {
    if outcomes != [] {
      var init := outcomes[..|outcomes| - 1];
      var last := outcomes[|outcomes| - 1];
      assert outcomes == init + [last];
      ErrorAfterAppend(error, init, last);
      ErrorAfterIsLastFailure(error, init);
    }
  }

  /** The error is never cleared: it is null after a run of fetches exactly
      when it was null before and none of them failed. */
  lemma {:induction false} ErrorNeverCleared(error: Option<string>, outcomes: seq<Outcome>)
    ensures ErrorAfter(error, outcomes) == None <==>
      error == None && forall i :: 0 <= i < |outcomes| ==> Caught(outcomes[i]) == None
    decreases |outcomes|
  {
    if outcomes != [] {
      ErrorNeverCleared(NextError(error, outcomes[0]), outcomes[1..]);
      assert forall i :: 1 <= i < |outcomes| ==> outcomes[i] == outcomes[1..][i - 1];
    }
  }

  /** Fetching twice with the same reply leaves the same state as fetching
      once. */
  lemma RefetchIdempotent(apps: seq<App>, error: Option<string>, outcome: Outcome)
    ensures AppsAfter(apps, [outcome, outcome]) == AppsAfter(apps, [outcome])
    ensures ErrorAfter(error, [outcome, outcome]) == ErrorAfter(error, [outcome])
  {
    assert [outcome, outcome][1..] == [outcome];
    assert [outcome][1..] == [];
  }

  /** A failed refetch keeps the list already shown and records the error. */
  lemma FailureKeepsData(apps: seq<App>, error: Option<string>, outcome: Outcome)
    requires Caught(outcome) != None
    ensures AppsAfter(apps, [outcome]) == apps
    ensures ErrorAfter(error, [outcome]) != None
  {
    assert [outcome][1..] == [];
  }

  /** One mounted hook through the two fetch scenarios: a reply with two
      records, then a refetch that throws "network down". */
  method FetchScenario(a: App, b: App)
  {
    var state := new AppsState();
    assert state.loading && state.apps == [] && state.error == None;
    state.FetchApps(Replied(Some([a, b]), None));
    assert !state.loading && state.error == None && state.apps == [a, b];
    state.Refetch(Replied(Some([a, b]), None));
    assert state.apps == [a, b];
    state.Refetch(Rejected(ErrorValue("network down")));
    assert !state.loading && state.error == Some("network down") && state.apps == [a, b];
    state.Refetch(Replied(Some([b]), None));
    assert state.apps == [b] && state.error == Some("network down");
  }
}
