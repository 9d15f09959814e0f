/** The file-picker bridge: the single slot filePathCallback that connects a
    browser file-input request (onShowFileChooser) to the result of the
    chooser activity it launches.

    The pure part describes every handler call as one Step over an Effect: the
    slot's contents and what has been observed so far (callbacks resolved,
    callbacks handed back to the browser, toasts). Run folds Step over any
    sequence of handler calls, and the lemmas below hold of every such run.
    The class MainActivity is the imperative form, proved to follow Run. */
module FileChooser {
  import opened Platform

  /** The identity of a ValueCallback<Uri[]> object supplied by the browser. */
  type CallbackId = nat
  /** A content Uri, by its string form. */
  type Uri = string
  /** The Uri[] passed to onReceiveValue: null, or an array whose elements may be null. */
  type UriArray = Option<seq<Option<Uri>>>

  /** Activity.RESULT_OK. */
  const RESULT_OK: int := -1

  /** The returned Intent; its getData() may be null. */
  datatype Intent = Intent(data: Option<Uri>)
  /** androidx ActivityResult: the result code and the (possibly null) Intent. */
  datatype ActivityResult = ActivityResult(resultCode: int, data: Option<Intent>)

  /** One call of callback.onReceiveValue(value). */
  datatype Resolution = Resolution(callback: CallbackId, value: UriArray)

  /** A handler call: onShowFileChooser with the new callback and whether
      fileChooserLauncher.launch returned normally, or the activity-result
      callback registered in onCreate. */
  datatype Event =
    | ShowFileChooser(callback: CallbackId, launchSucceeds: bool)
    | ResultArrived(result: ActivityResult)

  /** The slot, with everything observed so far. declined lists the callbacks
      for which onShowFileChooser returned false: the activity never invokes
      them and the browser takes them back. */
  datatype Effect = Effect(pending: Option<CallbackId>, resolved: seq<Resolution>,
                           declined: seq<CallbackId>, toasts: seq<Toast>)

  const Initial := Effect(None, [], [], [])

  const CHOOSER_FAILURE_TOAST := Toast("Cannot open file chooser", Long)

  /** The value handed to the pending callback for an activity result: a
      one-element array holding the returned Uri if the result is RESULT_OK
      and carries an Intent, and null otherwise. */
  function ChosenFiles(result: ActivityResult): (value: UriArray)
    ensures value.Some? <==> result.resultCode == RESULT_OK && result.data.Some?
    ensures value.Some? ==> |value.value| == 1 && value.value[0] == result.data.value.data
  {
    if result.resultCode == RESULT_OK && result.data.Some? then Some([result.data.value.data]) else None
  }

  /** The resolution that releases a pending callback with null, if there is one. */
  function Release(pending: Option<CallbackId>): seq<Resolution>
  {
    match pending
    case None => []
    case Some(c) => [Resolution(c, None)]
  }

  /** onShowFileChooser: a callback already pending is first resolved with
      null; the new callback stays pending if the launch succeeds, and is
      dropped without being invoked, with a toast, if the launch throws. */
  function ShowStep(e: Effect, callback: CallbackId, launchSucceeds: bool): (next: Effect)
    ensures e.resolved <= next.resolved && e.declined <= next.declined && e.toasts <= next.toasts
    ensures |next.resolved| == |e.resolved| + (if e.pending.Some? then 1 else 0)
    ensures e.pending.Some? ==> next.resolved[|e.resolved|] == Resolution(e.pending.value, None)
    ensures next.pending.Some? <==> launchSucceeds
    ensures next.pending.Some? ==> next.pending.value == callback
    ensures next.declined == e.declined + (if launchSucceeds then [] else [callback])
    ensures next.toasts == e.toasts + (if launchSucceeds then [] else [CHOOSER_FAILURE_TOAST])
  {
    if launchSucceeds then
      Effect(Some(callback), e.resolved + Release(e.pending), e.declined, e.toasts)
    else
      Effect(None, e.resolved + Release(e.pending), e.declined + [callback],
             e.toasts + [CHOOSER_FAILURE_TOAST])
  }

  /** The activity-result callback: with the slot empty nothing happens;
      otherwise the pending callback receives ChosenFiles(result), once, and
      the slot is emptied. */
  function ResultStep(e: Effect, result: ActivityResult): (next: Effect)
    ensures e.pending.None? ==> next == e
    ensures next.pending.None?
    ensures e.pending.Some? ==>
      next.resolved == e.resolved + [Resolution(e.pending.value, ChosenFiles(result))]
    ensures next.declined == e.declined && next.toasts == e.toasts
  {
    match e.pending
    case None => e
    case Some(c) => Effect(None, e.resolved + [Resolution(c, ChosenFiles(result))], e.declined, e.toasts)
  }

  /** One handler call. */
  function Step(e: Effect, event: Event): Effect
  {
    match event
    case ShowFileChooser(callback, launchSucceeds) => ShowStep(e, callback, launchSucceeds)
    case ResultArrived(result) => ResultStep(e, result)
  }

  /** The effect of a sequence of handler calls, made in order from start. */
  function Run(start: Effect, events: seq<Event>): Effect
  {
    if events == [] then start
    else Step(Run(start, events[..|events| - 1]), events[|events| - 1])
  }

  /** The callbacks the browser supplies in a sequence of handler calls. */
  function Offered(events: seq<Event>): seq<CallbackId>
  {
    if events == [] then []
    else
      var last := events[|events| - 1];
      Offered(events[..|events| - 1]) + (if last.ShowFileChooser? then [last.callback] else [])
  }

  function Callbacks(rs: seq<Resolution>): (cs: seq<CallbackId>)
    ensures |cs| == |rs| && forall i :: 0 <= i < |rs| ==> cs[i] == rs[i].callback
  {
    seq(|rs|, i requires 0 <= i < |rs| => rs[i].callback)
  }

  function Slot(pending: Option<CallbackId>): seq<CallbackId>
  {
    match pending
    case None => []
    case Some(c) => [c]
  }

  /** Every callback the activity holds or has held, counted with multiplicity:
      resolved, handed back to the browser, or still pending. */
  ghost function Accounted(e: Effect): multiset<CallbackId>
  {
    multiset(Callbacks(e.resolved)) + multiset(e.declined) + multiset(Slot(e.pending))
  }

  predicate Distinct<T(==)>(s: seq<T>)
  {
    forall i, j :: 0 <= i < j < |s| ==> s[i] != s[j]
  }

  lemma CallbacksAppend(a: seq<Resolution>, b: seq<Resolution>)
    ensures Callbacks(a + b) == Callbacks(a) + Callbacks(b)
  {
  }

  /** One handler call neither loses nor invents a callback: the one it is
      given (if any) joins those already accounted for, as resolved, declined
      or pending. */
  lemma StepAccounting(e: Effect, event: Event)
    ensures Accounted(Step(e, event)) ==
      Accounted(e) + multiset(if event.ShowFileChooser? then [event.callback] else [])
  {
    match event
    case ShowFileChooser(callback, launchSucceeds) =>
      var next := ShowStep(e, callback, launchSucceeds);
      assert next.resolved == e.resolved + Release(e.pending);
      CallbacksAppend(e.resolved, Release(e.pending));
      assert Callbacks(Release(e.pending)) == Slot(e.pending);
    case ResultArrived(result) =>
      if e.pending.Some? {
        var r := Resolution(e.pending.value, ChosenFiles(result));
        CallbacksAppend(e.resolved, [r]);
        assert Callbacks([r]) == Slot(e.pending);
      }
  }

  /** Over any sequence of handler calls, every callback the browser supplies
      ends up exactly once among the resolved, the declined and the pending
      callbacks, and nothing else ends up there. */
  lemma {:induction false} RunAccounting(start: Effect, events: seq<Event>)
    ensures Accounted(Run(start, events)) == Accounted(start) + multiset(Offered(events))
  {
    if events != [] {
      var init, last := events[..|events| - 1], events[|events| - 1];
      RunAccounting(start, init);
      StepAccounting(Run(start, init), last);
    }
  }

  lemma {:induction false} DistinctIffSingleCounts<T>(s: seq<T>)
    ensures Distinct(s) <==> forall x :: multiset(s)[x] <= 1
  {
    if s != [] {
      var init, last := s[..|s| - 1], s[|s| - 1];
      assert s == init + [last];
      DistinctIffSingleCounts(init);
      if Distinct(s) {
        assert last !in init;
      } else {
        var i, j :| 0 <= i < j < |s| && s[i] == s[j];
        if j < |s| - 1 {
          assert !Distinct(init) by { assert init[i] == init[j]; }
          var x :| multiset(init)[x] > 1;
          assert multiset(s)[x] > 1;
        } else {
          assert last in init by { assert init[i] == last; }
          assert multiset(s)[last] > 1;
        }
      }
    }
  }

  /** If the browser never supplies the same callback twice, the activity
      resolves each callback at most once, never resolves one it also handed
      back, and the pending callback (if any) has not been resolved yet. */
  lemma ResolvedAtMostOnce(events: seq<Event>)
    requires Distinct(Offered(events))
    ensures var e := Run(Initial, events);
      Distinct(Callbacks(e.resolved) + e.declined + Slot(e.pending))
  {
    var e := Run(Initial, events);
    RunAccounting(Initial, events);
    DistinctIffSingleCounts(Offered(events));
    DistinctIffSingleCounts(Callbacks(e.resolved) + e.declined + Slot(e.pending));
  }

  /** The activity only ever resolves callbacks the browser gave it. */
  lemma ResolvesOnlyOfferedCallbacks(events: seq<Event>)
    ensures var e := Run(Initial, events);
      forall i :: 0 <= i < |e.resolved| ==> e.resolved[i].callback in Offered(events)
  {
    RunAccounting(Initial, events);
  }

  /** For an activity in any reachable state: if the browser never supplied
      the same callback twice, no callback has been resolved twice. */
  lemma ActivityResolvesAtMostOnce(activity: MainActivity)
    requires activity.Valid() && Distinct(Offered(activity.history))
    ensures Distinct(Callbacks(activity.resolutions))
  {
    ResolvedAtMostOnce(activity.history);
    var cs := Callbacks(activity.resolutions);
    var all := cs + activity.declined + Slot(activity.filePathCallback);
    forall i, j | 0 <= i < j < |cs| ensures cs[i] != cs[j] {
      assert all[i] == cs[i] && all[j] == cs[j];
    }
  }

  /** The activity as far as the file chooser is concerned: the field
      filePathCallback, and ghost logs of what the handlers have done. */
  class MainActivity {
    var filePathCallback: Option<CallbackId>

    ghost var history: seq<Event>
    ghost var resolutions: seq<Resolution>
    ghost var declined: seq<CallbackId>
    ghost var toasts: seq<Toast>

    /** The field and the logs are what Run gives for the handler calls so far. */
    ghost predicate Valid()
      reads this
    {
      Effect(filePathCallback, resolutions, declined, toasts) == Run(Initial, history)
    }

    constructor ()
      ensures Valid() && history == []
      ensures filePathCallback == None && resolutions == [] && declined == [] && toasts == []
    {
      filePathCallback := None;
      history, resolutions, declined, toasts := [], [], [], [];
    }

    /** callback.onReceiveValue(value). */
    method ReceiveValue(callback: CallbackId, value: UriArray)
      modifies this
      ensures resolutions == old(resolutions) + [Resolution(callback, value)]
      ensures filePathCallback == old(filePathCallback) && history == old(history)
      ensures declined == old(declined) && toasts == old(toasts)
    {
      resolutions := resolutions + [Resolution(callback, value)];
    }

    /** WebChromeClient.onShowFileChooser. launchSucceeds says whether
        fileChooserLauncher.launch returned normally or threw. */
    method OnShowFileChooser(callback: CallbackId, launchSucceeds: bool) returns (handled: bool)
      requires Valid()
      modifies this
      ensures Valid() && history == old(history) + [ShowFileChooser(callback, launchSucceeds)]
      ensures handled == launchSucceeds
      ensures resolutions == old(resolutions) + Release(old(filePathCallback))
      ensures filePathCallback == if launchSucceeds then Some(callback) else None
      ensures declined == old(declined) + (if launchSucceeds then [] else [callback])
      ensures toasts == old(toasts) + (if launchSucceeds then [] else [CHOOSER_FAILURE_TOAST])
    {
      ghost var before := history;
      if filePathCallback.Some? {
        ReceiveValue(filePathCallback.value, None);
      }
      filePathCallback := Some(callback);
      if launchSucceeds {
        handled := true;
      } else {
        filePathCallback := None;
        declined := declined + [callback];
        toasts := toasts + [CHOOSER_FAILURE_TOAST];
        handled := false;
      }
      history := history + [ShowFileChooser(callback, launchSucceeds)];
      assert history[..|history| - 1] == before;
    }

    /** The activity-result callback registered in onCreate. */
    method OnActivityResult(result: ActivityResult)
      requires Valid()
      modifies this
      ensures Valid() && history == old(history) + [ResultArrived(result)]
      ensures old(filePathCallback).None? ==>
        filePathCallback == None && resolutions == old(resolutions)
      ensures old(filePathCallback).Some? ==>
        filePathCallback == None &&
        resolutions == old(resolutions) + [Resolution(old(filePathCallback).value, ChosenFiles(result))]
      ensures declined == old(declined) && toasts == old(toasts)
    {
      ghost var before := history;
      history := history + [ResultArrived(result)];
      assert history[..|history| - 1] == before;
      if filePathCallback.None? {
        return;
      }
      var resultUri: UriArray := None;
      if result.resultCode == RESULT_OK && result.data.Some? {
        resultUri := Some([result.data.value.data]);
      }
      ReceiveValue(filePathCallback.value, resultUri);
      filePathCallback := None;
    }
  }

  /** A second file-input request while the first is pending releases the
      first with null; the chooser's result then goes to the second. */
  method SecondRequestScenario()
  {
    var activity := new MainActivity();
    var handled := activity.OnShowFileChooser(1, true);
    handled := activity.OnShowFileChooser(2, true);
    assert activity.resolutions == [Resolution(1, None)];
    assert activity.filePathCallback == Some(2);
    activity.OnActivityResult(ActivityResult(RESULT_OK, Some(Intent(Some("content://picked")))));
    assert activity.resolutions == [Resolution(1, None), Resolution(2, Some([Some("content://picked")]))];
    assert activity.filePathCallback == None;
    activity.OnActivityResult(ActivityResult(RESULT_OK, None));
    assert |activity.resolutions| == 2;
  }
}
