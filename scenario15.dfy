/** The request lifecycle of the server-certificate validation page: the selected policy decides
    how the protocol filter is set up before one GET, the outcome is reported, and the validator is
    unsubscribed once the request has settled. Cancel replaces the token source. */
module Scenario15 {
  import opened CertificateCheck
  import opened Platform

  datatype Option<T> = None | Some(value: T)

  /** An absolute HTTP(S) URI, as produced by Helpers.TryParseHttpUri. */
  type Uri = string

  /** The three radio buttons of the page; exactly one is checked. */
  datatype ValidationPolicy =
    | DefaultOSValidation
    | DefaultAndCustomValidation
    | IgnoreErrorsAndCustomValidation

  datatype NotifyType = StatusMessage | ErrorMessage

  /** What the page shows: a NotifyUser message, or Helpers.DisplayWebError for an error code. */
  datatype Notification =
    | UserNotification(message: string, kind: NotifyType)
    | WebErrorDisplayed(extendedError: int)

  /** How the awaited send settles: a result that succeeded, one that did not (with its extended
      error), or a TaskCanceledException. */
  datatype SendResult = Succeeded | Failed(extendedError: int) | Canceled

  /** A request handed to the transport, with the policy it was sent under and the filter as it
      stood at that moment. */
  datatype SentRequest = SentRequest(uri: Uri, policy: ValidationPolicy, filter: FilterState)

  /** What the page can observe: its filter, the messages it showed, the requests it sent. */
  datatype PageState = PageState(filter: FilterState, notifications: seq<Notification>, sent: seq<SentRequest>)

  /** The locals the handler keeps across the await. */
  datatype InFlight = InFlight(token: CancellationTokenSource, isUsingCustomValidation: bool)

  const InvalidUri := UserNotification("Invalid URI.", ErrorMessage)
  const InProgress := UserNotification("In progress", StatusMessage)
  const SuccessMessage := UserNotification("Success - response received from server. Server certificate was valid.", StatusMessage)
  const CanceledMessage := UserNotification("Request canceled.", ErrorMessage)

  predicate UsesCustomValidation(policy: ValidationPolicy) {
    !policy.DefaultOSValidation?
  }

  /** The filter set-up before the send: the policy decides the subscription and the ignorable
      errors, and caching is turned off in both directions. */
  function PrepareFilter(f: FilterState, policy: ValidationPolicy): (g: FilterState)
    ensures g.validationHandlers == f.validationHandlers + 1 <==> UsesCustomValidation(policy)
    ensures g.validationHandlers == f.validationHandlers <==> !UsesCustomValidation(policy)
    ensures policy.IgnoreErrorsAndCustomValidation? ==> g.ignorableErrors == f.ignorableErrors + [Untrusted, InvalidName]
    ensures !policy.IgnoreErrorsAndCustomValidation? ==> g.ignorableErrors == f.ignorableErrors
    ensures g.readBehavior == HttpCacheReadBehavior.NoCache && g.writeBehavior == HttpCacheWriteBehavior.NoCache
  {
    var handlers := if UsesCustomValidation(policy) then f.validationHandlers + 1 else f.validationHandlers;
    var ignorable :=
      if policy.IgnoreErrorsAndCustomValidation? then f.ignorableErrors + [Untrusted, InvalidName]
      else f.ignorableErrors;
    FilterState(handlers, ignorable, HttpCacheReadBehavior.NoCache, HttpCacheWriteBehavior.NoCache)
  }

  /** The clean-up after the request settles: the validator is unsubscribed only if this request
      subscribed it, and nothing else about the filter changes. */
  function SettleFilter(f: FilterState, wasSubscribed: bool): (g: FilterState)
    ensures wasSubscribed && f.validationHandlers > 0 ==> g.validationHandlers == f.validationHandlers - 1
    ensures wasSubscribed && f.validationHandlers == 0 ==> g == f
    ensures !wasSubscribed ==> g == f
    ensures g.ignorableErrors == f.ignorableErrors
    ensures g.readBehavior == f.readBehavior && g.writeBehavior == f.writeBehavior
  {
    if wasSubscribed && f.validationHandlers > 0 then f.(validationHandlers := f.validationHandlers - 1)
    else f
  }

  /** The message shown for each way the send can settle. */
  function OutcomeNotification(result: SendResult): (n: Notification)
    ensures result.Succeeded? <==> n == SuccessMessage
    ensures result.Canceled? <==> n == CanceledMessage
    ensures result.Failed? <==> n.WebErrorDisplayed?
    ensures result.Failed? ==> n.extendedError == result.extendedError
  {
    match result
    case Succeeded => SuccessMessage
    case Failed(extendedError) => WebErrorDisplayed(extendedError)
    case Canceled => CanceledMessage
  }

  /** Different outcomes are never reported the same way. */
  lemma OutcomeNotificationOneToOne(a: SendResult, b: SendResult)
    ensures OutcomeNotification(a) == OutcomeNotification(b) ==> a == b
  {
  }

  /** The part of Start_Click before the await. An address that did not parse is reported and
      nothing else happens; otherwise the filter is prepared and the request sent. */
  function BeginRequest(s: PageState, resourceUri: Option<Uri>, policy: ValidationPolicy): (t: PageState)
    ensures resourceUri.None? ==>
              t.filter == s.filter && t.sent == s.sent && t.notifications == s.notifications + [InvalidUri]
    ensures resourceUri.Some? ==>
              t.filter == PrepareFilter(s.filter, policy)
              && t.sent == s.sent + [SentRequest(resourceUri.value, policy, t.filter)]
              && t.notifications == s.notifications + [InProgress]
  {
    match resourceUri
    case None => s.(notifications := s.notifications + [InvalidUri])
    case Some(uri) =>
      var f := PrepareFilter(s.filter, policy);
      PageState(f, s.notifications + [InProgress], s.sent + [SentRequest(uri, policy, f)])
  }

  /** The part of Start_Click after the await: the outcome is reported and the subscription this
      request made, if any, is removed. */
  function ResumeRequest(s: PageState, isUsingCustomValidation: bool, result: SendResult): (t: PageState)
    ensures t.filter == SettleFilter(s.filter, isUsingCustomValidation)
    ensures t.notifications == s.notifications + [OutcomeNotification(result)]
    ensures t.sent == s.sent
  {
    PageState(SettleFilter(s.filter, isUsingCustomValidation), s.notifications + [OutcomeNotification(result)], s.sent)
  }

  /** One whole Start_Click when nothing else runs during the await. */
  function StartClickSpec(s: PageState, resourceUri: Option<Uri>, policy: ValidationPolicy, result: SendResult): (t: PageState)
    ensures t.filter.validationHandlers == s.filter.validationHandlers
    ensures s.filter.ignorableErrors <= t.filter.ignorableErrors
    ensures !policy.IgnoreErrorsAndCustomValidation? ==> t.filter.ignorableErrors == s.filter.ignorableErrors
    ensures resourceUri.None? ==>
              t.filter == s.filter && t.sent == s.sent && t.notifications == s.notifications + [InvalidUri]
    ensures resourceUri.Some? ==>
              |t.sent| == |s.sent| + 1 && t.sent[..|s.sent|] == s.sent
              && t.sent[|s.sent|].uri == resourceUri.value
              && t.sent[|s.sent|].policy == policy
              && t.sent[|s.sent|].filter.readBehavior == HttpCacheReadBehavior.NoCache
              && t.sent[|s.sent|].filter.writeBehavior == HttpCacheWriteBehavior.NoCache
              && (t.sent[|s.sent|].filter.validationHandlers == s.filter.validationHandlers + 1
                  <==> UsesCustomValidation(policy))
              && (t.sent[|s.sent|].filter.validationHandlers == s.filter.validationHandlers
                  <==> !UsesCustomValidation(policy))
    ensures resourceUri.Some? ==> t.notifications == s.notifications + [InProgress, OutcomeNotification(result)]
  {
    var begun := BeginRequest(s, resourceUri, policy);
    if resourceUri.None? then begun else ResumeRequest(begun, UsesCustomValidation(policy), result)
  }

  /** One press of the Start button, with what TryParseHttpUri gave for the address, the checked
      policy and how the send settled. */
  datatype Click = Click(resourceUri: Option<Uri>, policy: ValidationPolicy, result: SendResult)

  /** The page after a series of Start clicks, each finishing before the next. */
  function Run(s: PageState, clicks: seq<Click>): PageState
    decreases |clicks|
  {
    if clicks == [] then s
    else Run(StartClickSpec(s, clicks[0].resourceUri, clicks[0].policy, clicks[0].result), clicks[1..])
  }

  /** No subscription outlives its request: however many requests run, the validator's
      subscription count is what it was before the first. */
  lemma {:induction false} NoHandlerLeak(s: PageState, clicks: seq<Click>)
    ensures Run(s, clicks).filter.validationHandlers == s.filter.validationHandlers
    decreases |clicks|
  {
    if clicks != [] {
      NoHandlerLeak(StartClickSpec(s, clicks[0].resourceUri, clicks[0].policy, clicks[0].result), clicks[1..]);
    }
  }

  /** Nothing removes an ignorable error: the list before is a prefix of the list after, and it is
      unchanged when no click selected the ignore-errors policy. */
  lemma {:induction false} IgnorableErrorsOnlyGrow(s: PageState, clicks: seq<Click>)
    ensures s.filter.ignorableErrors <= Run(s, clicks).filter.ignorableErrors
    ensures (forall i | 0 <= i < |clicks| :: !clicks[i].policy.IgnoreErrorsAndCustomValidation?) ==>
              Run(s, clicks).filter.ignorableErrors == s.filter.ignorableErrors
    decreases |clicks|
  {
    if clicks != [] {
      var next := StartClickSpec(s, clicks[0].resourceUri, clicks[0].policy, clicks[0].result);
      IgnorableErrorsOnlyGrow(next, clicks[1..]);
      assert forall i | 0 <= i < |clicks| - 1 :: clicks[1..][i] == clicks[i + 1];
    }
  }

  /** Every request the series sends goes out with caching off in both directions, and with the
      validator subscribed once more than before the series exactly when its own policy is a custom
      one: no earlier request's policy leaks into it. */
  lemma {:induction false} EverySentRequestScoped(s: PageState, clicks: seq<Click>)
    ensures |s.sent| <= |Run(s, clicks).sent| && Run(s, clicks).sent[..|s.sent|] == s.sent
    ensures forall i | |s.sent| <= i < |Run(s, clicks).sent| ::
              var r := Run(s, clicks).sent[i];
              r.filter.readBehavior == HttpCacheReadBehavior.NoCache
              && r.filter.writeBehavior == HttpCacheWriteBehavior.NoCache
              && (r.filter.validationHandlers == s.filter.validationHandlers + 1 <==> UsesCustomValidation(r.policy))
              && (r.filter.validationHandlers == s.filter.validationHandlers <==> !UsesCustomValidation(r.policy))
    decreases |clicks|
  {
    if clicks != [] {
      var next := StartClickSpec(s, clicks[0].resourceUri, clicks[0].policy, clicks[0].result);
      EverySentRequestScoped(next, clicks[1..]);
      var t := Run(s, clicks);
      assert t == Run(next, clicks[1..]);
      assert t.sent[..|next.sent|] == next.sent;
      assert t.sent[..|s.sent|] == next.sent[..|s.sent|];
    }
  }

  /** On a page whose filter has no subscription, a request sent under the default policy is never
      seen by the custom validator, whatever requests ran before it. */
  lemma DefaultPolicyNeverConsultsValidator(s: PageState, clicks: seq<Click>, i: nat)
    requires s.filter.validationHandlers == 0
    requires |s.sent| <= i < |Run(s, clicks).sent|
    requires Run(s, clicks).sent[i].policy.DefaultOSValidation?
    ensures Run(s, clicks).sent[i].filter.validationHandlers == 0
  {
    EverySentRequestScoped(s, clicks);
  }

  /** The ignorable errors are not scoped to a request: after one request under the ignore-errors
      policy, a later request under the default policy still goes out with Untrusted and
      InvalidName marked ignorable. */
  lemma IgnoredErrorsOutliveTheirRequest(s: PageState, first: Uri, second: Uri, firstResult: SendResult, secondResult: SendResult)
    ensures var t := Run(s, [Click(Some(first), IgnoreErrorsAndCustomValidation, firstResult),
                             Click(Some(second), DefaultOSValidation, secondResult)]);
            |t.sent| == |s.sent| + 2
            && t.sent[|s.sent| + 1].policy == DefaultOSValidation
            && Untrusted in t.sent[|s.sent| + 1].filter.ignorableErrors
            && InvalidName in t.sent[|s.sent| + 1].filter.ignorableErrors
  {
    var clicks := [Click(Some(first), IgnoreErrorsAndCustomValidation, firstResult),
                   Click(Some(second), DefaultOSValidation, secondResult)];
    var u := StartClickSpec(s, Some(first), IgnoreErrorsAndCustomValidation, firstResult);
    var v := StartClickSpec(u, Some(second), DefaultOSValidation, secondResult);
    assert Run(s, clicks) == Run(u, clicks[1..]);
    assert clicks[1..][0] == clicks[1] && clicks[1..][1..] == [];
    assert Run(u, clicks[1..]) == Run(v, []);
    assert v.sent[|u.sent|].filter.ignorableErrors == u.filter.ignorableErrors;
    assert u.filter.ignorableErrors == s.filter.ignorableErrors + [Untrusted, InvalidName];
  }

  /** Scenario15_ServerCertificateValidation: the page, holding its filter, the token source of the
      current request, the messages it has shown and (as a record of the transport's view) the
      requests it has sent. */
  class ServerCertificateValidationPage {
    const filter: HttpBaseProtocolFilter
    var cts: CancellationTokenSource
    var notifications: seq<Notification>
    ghost var sent: seq<SentRequest>

    ghost predicate Valid()
      reads this, cts
    {
      !cts.isDisposed
    }

    ghost function State(): PageState
      reads this, filter
    {
      PageState(filter.State(), notifications, sent)
    }

    /** OnNavigatedTo: a fresh filter and a fresh token source. */
    constructor ()
      ensures Valid() && fresh(filter) && fresh(cts) && !cts.isCancellationRequested
      ensures State() == PageState(FilterState(0, [], HttpCacheReadBehavior.Default, HttpCacheWriteBehavior.Default), [], [])
    {
      filter := new HttpBaseProtocolFilter();
      cts := new CancellationTokenSource();
      notifications := [];
      sent := [];
    }

    /** Start_Click up to the await. `resourceUri` is what Helpers.TryParseHttpUri returned for the
        address field. The result holds what the rest of the handler needs, or None when the handler
        returned early. */
    method StartClickBegin(resourceUri: Option<Uri>, policy: ValidationPolicy) returns (pending: Option<InFlight>)
      requires Valid()
      modifies this`notifications, this`sent, filter
      ensures Valid()
      ensures State() == BeginRequest(old(State()), resourceUri, policy)
      ensures pending.Some? <==> resourceUri.Some?
      ensures pending.Some? ==> pending.value == InFlight(cts, UsesCustomValidation(policy))
    {
      if resourceUri.None? {
        notifications := notifications + [InvalidUri];
        return None;
      }
      ghost var before := filter.State();
      notifications := notifications + [InProgress];

      var isUsingCustomValidation := false;
      match policy {
        case DefaultOSValidation =>
        case DefaultAndCustomValidation =>
          filter.AddServerCustomValidationHandler();
          isUsingCustomValidation := true;
        case IgnoreErrorsAndCustomValidation =>
          filter.AddIgnorableServerCertificateError(Untrusted);
          filter.AddIgnorableServerCertificateError(InvalidName);
          filter.AddServerCustomValidationHandler();
          isUsingCustomValidation := true;
      }

      filter.cacheWriteBehavior := HttpCacheWriteBehavior.NoCache;
      filter.cacheReadBehavior := HttpCacheReadBehavior.NoCache;
      assert filter.State() == PrepareFilter(before, policy);

      sent := sent + [SentRequest(resourceUri.value, policy, filter.State())];
      pending := Some(InFlight(cts, isUsingCustomValidation));
    }

    /** Start_Click after the await, once the send has settled as `result`. */
    method StartClickResume(pending: InFlight, result: SendResult)
      requires Valid()
      modifies this`notifications, filter
      ensures Valid()
      ensures State() == ResumeRequest(old(State()), pending.isUsingCustomValidation, result)
    {
      match result {
        case Succeeded =>
          notifications := notifications + [SuccessMessage];
        case Failed(extendedError) =>
          notifications := notifications + [WebErrorDisplayed(extendedError)];
        case Canceled =>
          notifications := notifications + [CanceledMessage];
      }

      if pending.isUsingCustomValidation {
        filter.RemoveServerCustomValidationHandler();
      }
    }

    /** Start_Click when no other handler runs during the await. */
    method StartClick(resourceUri: Option<Uri>, policy: ValidationPolicy, result: SendResult)
      requires Valid()
      modifies this`notifications, this`sent, filter
      ensures Valid()
      ensures State() == StartClickSpec(old(State()), resourceUri, policy, result)
      ensures filter.validationHandlers == old(filter.validationHandlers)
    {
      var pending := StartClickBegin(resourceUri, policy);
      if pending.Some? {
        StartClickResume(pending.value, result);
      }
    }

    /** Cancel_Click: cancels and disposes the current token source, which a request in flight was
        started with, and puts a new one in its place for the next request. */
    method CancelClick()
      requires Valid()
      modifies this`cts, cts
      ensures Valid() && fresh(cts) && !cts.isCancellationRequested
      ensures old(cts).isCancellationRequested && old(cts).isDisposed
      ensures State() == old(State())
    {
      cts.Cancel();
      cts.Dispose();
      cts := new CancellationTokenSource();
    }
  }

  /** A Start whose send is canceled from Cancel_Click during the await, followed by a second Start:
      the first request's token is the one canceled, the second goes out with a new token that is
      not, both outcomes are reported, and the subscriptions balance. */
  method CancelDuringRequestThenRetry(
    page: ServerCertificateValidationPage, uri: Uri, policy: ValidationPolicy, retryResult: SendResult)
    returns (firstToken: CancellationTokenSource, secondToken: CancellationTokenSource)
    requires page.Valid()
    modifies page, page.filter, page.cts
    ensures page.Valid()
    ensures firstToken.isCancellationRequested && !secondToken.isCancellationRequested
    ensures firstToken != secondToken && secondToken == page.cts
    ensures page.filter.validationHandlers == old(page.filter.validationHandlers)
    ensures page.notifications
            == old(page.notifications) + [InProgress, CanceledMessage, InProgress, OutcomeNotification(retryResult)]
  {
    var first := page.StartClickBegin(Some(uri), policy);
    page.CancelClick();
    page.StartClickResume(first.value, Canceled);
    var second := page.StartClickBegin(Some(uri), policy);
    page.StartClickResume(second.value, retryResult);
    firstToken, secondToken := first.value.token, second.value.token;
  }
}
