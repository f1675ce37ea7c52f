# Server-certificate validation scenario, modelled in Dafny

This project models the HttpClient sample page `Scenario15_ServerCertificateValidation`. The page
wraps a single HTTP GET in a custom TLS server-certificate validation gate. It has three parts:

- **The pinning check** (`IsCertificateValidAsync`). It compares the server certificate's hash, byte
  by byte, with a 20-byte constant compiled into the page.
- **The validator** (`MyCustomServerCertificateValidator`). The transport calls it during the
  handshake. It calls `Reject()` when the check says "invalid" or throws. Otherwise it leaves the
  certificate accepted.
- **The request lifecycle** (`Start_Click`, `Cancel_Click`). An address that does not parse is
  reported as "Invalid URI." and nothing else happens. The checked policy decides two things: whether
  the validator is subscribed to the filter's `ServerCustomValidationRequested` event, and whether
  `Untrusted` and `InvalidName` are added to the filter's ignorable errors. Caching is then turned off
  in both directions and the GET is sent with the current cancellation token. The outcome is
  reported, and the validator is unsubscribed if this request subscribed it. `Cancel_Click` cancels
  and disposes the token source and puts a new one in its place.

Files:

- `certificate_check.dfy`, module `CertificateCheck`: the trusted hash, `Enumerable.SequenceEqual`
  as a length check followed by a pairwise comparison, the check, the validator's decision, and the
  validator as a method over the event arguments.
- `platform.dfy`, module `Platform`: the platform objects the page mutates. These are the protocol
  filter (subscription count, ignorable-error list, cache read and write behaviour) and the
  cancellation token source.
- `scenario15.dfy`, module `Scenario15`: the page as a class, and a pure specification of each step.
  The class methods are proved equal to that specification. The lemmas are about runs of many
  clicks.

The C# `Start_Click` is an `async` handler. It suspends at the `await` on the send, and
`Cancel_Click` can run while it waits. So the model splits it in two: `StartClickBegin` is the code
up to the await, and `StartClickResume` is the code after it. `InFlight` holds the locals that live
across the await: the token, and whether this request subscribed the validator. `StartClick` runs
both halves with nothing in between. `CancelDuringRequestThenRetry` runs a cancel inside the await
and then a second request.

Inputs the model takes as parameters:

- the result of `Helpers.TryParseHttpUri` on the address field, as `Option<Uri>`;
- the checked radio button, as `ValidationPolicy`;
- how the send settles, as `SendResult`: `Succeeded`, `Failed(extendedError)`, or `Canceled` for a
  `TaskCanceledException`;
- whether the awaited check raised, as the boolean `faulted`.

## Behaviour worth noting

- `Untrusted` and `InvalidName` are added under the ignore-errors policy and never removed. Later
  requests under any policy keep them (`IgnoredErrorsOutliveTheirRequest`), and repeated clicks
  append duplicates.
- The token source is replaced only by `Cancel_Click`.
- A rejected certificate shows up only as a failed send, reported through `Helpers.DisplayWebError`
  with its extended error. The page has no message of its own for it.
- The trusted hash is a constant inside `IsCertificateValidAsync`.

## Model

| member | source | states |
|---|---|---|
| `CertificateCheck.SequenceEqual` | Samples/HttpClient/cs/Scenario15_ServerCertificateValidation.xaml.cs:191 | Two byte sequences compare equal only when they have the same length |
| `CertificateCheck.SequenceEqualIsEquality` | Samples/HttpClient/cs/Scenario15_ServerCertificateValidation.xaml.cs:187-191 | The byte-by-byte comparison holds exactly when the two sequences are equal, in both directions |
| `CertificateCheck.IsCertificateValid` | Samples/HttpClient/cs/Scenario15_ServerCertificateValidation.xaml.cs:179-201 | The check throws exactly when its awaited work fails. Otherwise it returns true exactly when the hash equals the 20-byte trusted hash, so a hash of any other length is never valid |
| `CertificateCheck.ValidatorDecision` | Samples/HttpClient/cs/Scenario15_ServerCertificateValidation.xaml.cs:162-175 | Accept exactly when the check completed with true; reject whenever the check threw (default-deny) |
| `CertificateCheck.AcceptedExactlyWhenPinned` | Samples/HttpClient/cs/Scenario15_ServerCertificateValidation.xaml.cs:162-200 | The validator accepts a certificate exactly when the check did not fail and its hash is the trusted one |
| `CertificateCheck.MyCustomServerCertificateValidator` | Samples/HttpClient/cs/Scenario15_ServerCertificateValidation.xaml.cs:150-177 | The event arguments end up rejected exactly when they already were or the decision is Reject. A certificate left unrejected has the trusted hash and a check that did not throw |
| `CertificateCheck.ValidationRequestedArgs.Reject` | Samples/HttpClient/cs/Scenario15_ServerCertificateValidation.xaml.cs:167 | `args.Reject()` marks the connection rejected; it is the validator's only side effect |
| `Platform.HttpBaseProtocolFilter.constructor` | Samples/HttpClient/cs/Scenario15_ServerCertificateValidation.xaml.cs:45 | A new filter has no subscription, no ignorable errors and default cache read and write behaviour |
| `Platform.CancellationTokenSource.constructor` | Samples/HttpClient/cs/Scenario15_ServerCertificateValidation.xaml.cs:145 | A new token source has no cancellation requested and is not disposed |
| `Platform.HttpBaseProtocolFilter.AddServerCustomValidationHandler` | Samples/HttpClient/cs/Scenario15_ServerCertificateValidation.xaml.cs:80 | `+=` adds one subscription and changes nothing else on the filter |
| `Platform.HttpBaseProtocolFilter.RemoveServerCustomValidationHandler` | Samples/HttpClient/cs/Scenario15_ServerCertificateValidation.xaml.cs:133 | `-=` removes one subscription if there is one, and otherwise changes nothing |
| `Platform.HttpBaseProtocolFilter.AddIgnorableServerCertificateError` | Samples/HttpClient/cs/Scenario15_ServerCertificateValidation.xaml.cs:91-92 | Adding an ignorable error appends it to the list and changes nothing else |
| `Platform.CancellationTokenSource.Cancel` | Samples/HttpClient/cs/Scenario15_ServerCertificateValidation.xaml.cs:141 | After Cancel, cancellation is requested on the source |
| `Platform.CancellationTokenSource.Dispose` | Samples/HttpClient/cs/Scenario15_ServerCertificateValidation.xaml.cs:142 | After Dispose the source is disposed and its cancellation flag is unchanged |
| `Scenario15.PrepareFilter` | Samples/HttpClient/cs/Scenario15_ServerCertificateValidation.xaml.cs:71-103 | The subscription count goes up by one exactly under the two custom policies and is unchanged under the default one. Only the ignore-errors policy appends Untrusted and InvalidName. Cache read and write both become NoCache |
| `Scenario15.SettleFilter` | Samples/HttpClient/cs/Scenario15_ServerCertificateValidation.xaml.cs:130-134 | The subscription is removed only if this request made it (and is there to remove); otherwise the filter is unchanged. The ignorable errors and the cache settings are never touched |
| `Scenario15.OutcomeNotification` | Samples/HttpClient/cs/Scenario15_ServerCertificateValidation.xaml.cs:116-128 | Success gives the success status, a non-success result gives the web-error display of its extended error, and cancellation gives "Request canceled.", each in both directions |
| `Scenario15.OutcomeNotificationOneToOne` | Samples/HttpClient/cs/Scenario15_ServerCertificateValidation.xaml.cs:116-128 | Different outcomes are never reported the same way |
| `Scenario15.BeginRequest` | Samples/HttpClient/cs/Scenario15_ServerCertificateValidation.xaml.cs:61-114 | An invalid address adds "Invalid URI." and leaves the filter and the sent requests as they were. A valid one reports "In progress", prepares the filter and sends exactly one request with the prepared filter |
| `Scenario15.ResumeRequest` | Samples/HttpClient/cs/Scenario15_ServerCertificateValidation.xaml.cs:112-136 | After the send settles, its outcome is reported, the filter is settled and no request is sent |
| `Scenario15.StartClickSpec` | Samples/HttpClient/cs/Scenario15_ServerCertificateValidation.xaml.cs:57-137 | A whole click leaves the subscription count where it was and only extends the ignorable errors. An invalid address only adds "Invalid URI.". A valid address sends one request, with caching off, one extra subscription exactly under a custom policy and none otherwise |
| `Scenario15.NoHandlerLeak` | Samples/HttpClient/cs/Scenario15_ServerCertificateValidation.xaml.cs:71-134 | After any series of clicks the subscription count equals its value before the series |
| `Scenario15.IgnorableErrorsOnlyGrow` | Samples/HttpClient/cs/Scenario15_ServerCertificateValidation.xaml.cs:83-92 | Over any series of clicks the ignorable-error list before is a prefix of the list after. It is unchanged when no click used the ignore-errors policy |
| `Scenario15.EverySentRequestScoped` | Samples/HttpClient/cs/Scenario15_ServerCertificateValidation.xaml.cs:71-114 | Every request a series sends goes out with caching off. It has one extra subscription exactly when its own policy is custom, and none beyond the starting count otherwise |
| `Scenario15.DefaultPolicyNeverConsultsValidator` | Samples/HttpClient/cs/Scenario15_ServerCertificateValidation.xaml.cs:72-75 | Start from a page with no subscription. Then a request sent under the default policy has no validator subscribed, whatever ran before it |
| `Scenario15.IgnoredErrorsOutliveTheirRequest` | Samples/HttpClient/cs/Scenario15_ServerCertificateValidation.xaml.cs:83-103 | After an ignore-errors request, a default-policy request still goes out with Untrusted and InvalidName ignorable |
| `Scenario15.ServerCertificateValidationPage.constructor` | Samples/HttpClient/cs/Scenario15_ServerCertificateValidation.xaml.cs:41-48 | A new page has a fresh filter with no subscription, no ignorable errors and default caching, and a fresh uncanceled token source |
| `Scenario15.ServerCertificateValidationPage.StartClickBegin` | Samples/HttpClient/cs/Scenario15_ServerCertificateValidation.xaml.cs:57-114 | The page invariant is kept, and the page state after the code before the await is BeginRequest of the old state. A request is pending exactly when the address parsed, and it carries the current token and whether it subscribed the validator |
| `Scenario15.ServerCertificateValidationPage.StartClickResume` | Samples/HttpClient/cs/Scenario15_ServerCertificateValidation.xaml.cs:112-136 | The page invariant is kept, and the page state after the code following the await is ResumeRequest of the old state |
| `Scenario15.ServerCertificateValidationPage.StartClick` | Samples/HttpClient/cs/Scenario15_ServerCertificateValidation.xaml.cs:57-137 | An uninterrupted click keeps the page invariant, moves the page state by StartClickSpec and leaves the subscription count unchanged |
| `Scenario15.ServerCertificateValidationPage.CancelClick` | Samples/HttpClient/cs/Scenario15_ServerCertificateValidation.xaml.cs:139-146 | The old token source is canceled and disposed. `cts` is a fresh, uncanceled source. Nothing else the page shows changes |
| `Scenario15.CancelDuringRequestThenRetry` | Samples/HttpClient/cs/Scenario15_ServerCertificateValidation.xaml.cs:109-146 | A cancel during the await cancels exactly the first request's token. The retry goes out with a different, uncanceled token. Both outcomes are reported in order, and the subscriptions balance |

## Left out

- The `Task.Delay(100)` in the check, the deferral taken by the validator and the `async void` mechanics of both handlers are timing and scheduling. The check is a function of the hash and of whether the awaited work raised (`faulted`).
- The TLS handshake and `HttpClient.TrySendRequestAsync` are platform networking. How the send settles is a free parameter, so the model does not tie a rejected certificate to a failed send, nor a canceled token to a `Canceled` result.
- Exceptions from the send other than `TaskCanceledException` are not modelled. They would escape the `async void` handler. The `-=` is not in a `finally` block, so on that path the subscription would stay, and `NoHandlerLeak` covers only the three modelled outcomes.
- The bodies of `Helpers.TryParseHttpUri`, `Helpers.DisplayWebError`, `Helpers.ScenarioStarted` and `Helpers.ScenarioCompleted` are not part of this model. URI parsing is an input, and a web error is recorded as its extended error code.
- The Start and Cancel buttons are not modelled. `ScenarioStarted` and `ScenarioCompleted` enable and disable them, so the model also allows a second Start while one is in flight.
- `MainPage.NotifyUser` is recorded as a message and kind appended to the page's notifications, and nothing is displayed.
- `OnNavigatedFrom` (disposal of the token source, client and filter) and the three radio-button handlers that fill in the address field are UI wiring.
- The certificate's intermediate chain is read by the validator but never used, so it is not modelled.
- `ChainValidationResult` is reduced to `Untrusted`, `InvalidName` and one value for all the other results, because the page names only those two.
- `Samples/AdvancedCasting/cs/MainPage.xaml.cs`, `Samples/GlobalizationPreferences/cppwinrt/Scenario2_Lang.h` and `archived/WebAuthenticationBroker/js/js/sample-configuration.js` are navigation UI, declarations and a static scenario list with a foreign call, and are not part of this model.
