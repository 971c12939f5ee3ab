// The Android `SpaydPayViaBankAppResolver`: the public operations built on
// receiver resolution and the dispatch decision, with QR-file generation and
// activity launching as oracles and exceptions as values.

module Resolver {
  import opened PackageQuery
  import opened Receivers
  import opened Dispatch

  /** The exceptions that reach `payViaBankApp`'s catch clauses: any
      `Exception` the platform throws, and the library's two wrappers. */
  datatype Throwable =
    | PlatformException(message: string)
    | QrCodeFileException(cause: Throwable)
    | BankAppOpeningException(cause: Throwable)

  /** What happens when the QR code is rendered into the cache directory and
      exposed as a URI: the URI, or the `Exception` the file system, renderer
      or file provider threw. */
  datatype QrWrite = Written(uri: string) | WriteThrew(error: Throwable)

  /** The activity behind the weak reference: already collected, or alive,
      in which case `startActivity` either returns or throws an `Exception`. */
  datatype Activity = Gone | Alive(startThrows: Option<Throwable>)

  /** A value, or the exception thrown instead of producing it. */
  datatype Outcome<+T> = Ok(value: T) | Thrown(error: Throwable)

  /** `Result<Unit>` of `payViaBankApp`. */
  datatype PayResult = Success | Failure(error: Throwable)

  /** The extra an intent carries: the descriptor, or the QR image URI. */
  datatype Payload = SpaydExtra(spayd: string) | QrStream(uri: string)

  /** An intent addressed to one package. */
  datatype TargetedIntent = TargetedIntent(pkg: string, payload: Payload)

  /** What is passed to `startActivity`: one targeted intent, or a chooser
      over the generic intent with pinned initial intents. */
  datatype Launch =
    | StartDirect(intent: TargetedIntent)
    | StartChooser(generic: Payload, initial: seq<TargetedIntent>)

  /** Everything one call does that an observer can see: whether writing the
      QR file was attempted, what was passed to `startActivity`, and the result. */
  datatype Attempt = Attempt(qrAttempted: bool, started: Option<Launch>, result: PayResult)

  /** `generateQrCodeUri`: every failure leaves as a `QrCodeFileException`
      wrapping the original cause. */
  function GenerateQrCodeUri(w: QrWrite): (r: Outcome<string>)
    ensures r.Ok? <==> w.Written?
    ensures r.Ok? ==> r.value == w.uri
    ensures r.Thrown? ==> r.error.QrCodeFileException? && r.error.cause == w.error
  {
    match w
    case Written(uri) => Ok(uri)
    case WriteThrew(e) => Thrown(QrCodeFileException(e))
  }

  /** The two catch clauses of `payViaBankApp`, chosen by exception type. */
  function Caught(e: Throwable): (r: Throwable)
    ensures r.QrCodeFileException? || r.BankAppOpeningException?
    ensures e.QrCodeFileException? ==> r == e
    ensures !e.QrCodeFileException? ==> r.BankAppOpeningException? && r.cause == e
  {
    if e.QrCodeFileException? then e else BankAppOpeningException(e)
  }

  /** The extra an intent of the given kind carries. */
  function PayloadFor(kind: Kind, spayd: string, uri: string): Payload {
    match kind
    case Spayd => SpaydExtra(spayd)
    case Image => QrStream(uri)
  }

  /** The packages a launch addresses, in order. */
  function LaunchPackages(l: Launch): seq<string> {
    match l
    case StartDirect(i) => [i.pkg]
    case StartChooser(_, initial) => seq(|initial|, k requires 0 <= k < |initial| => initial[k].pkg)
  }

  /** The intent built for a plan once the QR URI (if any) is known. */
  function BuildLaunch(plan: Plan, spayd: string, uri: string): (l: Launch)
    ensures LaunchPackages(l) == Packages(plan)
    ensures l.StartDirect? <==> !plan.Chooser?
    ensures l.StartDirect? ==>
              l.intent.payload == (if plan.LaunchSpayd? then SpaydExtra(spayd) else QrStream(uri))
    ensures l.StartChooser? ==>
              l.generic == PayloadFor(plan.base, spayd, uri) &&
              forall k :: 0 <= k < |l.initial| ==>
                l.initial[k].payload == PayloadFor(plan.initial[k].kind, spayd, uri)
  {
    match plan
    case LaunchSpayd(p) => StartDirect(TargetedIntent(p, SpaydExtra(spayd)))
    case LaunchImage(p) => StartDirect(TargetedIntent(p, QrStream(uri)))
    case Chooser(base, initial) =>
      StartChooser(PayloadFor(base, spayd, uri),
                   seq(|initial|, k requires 0 <= k < |initial| =>
                     TargetedIntent(initial[k].pkg, PayloadFor(initial[k].kind, spayd, uri))))
  }

  /** `activityReference.get()?.startActivity(l)` inside the try block. */
  function Start(l: Launch, activity: Activity, qrAttempted: bool): (a: Attempt)
    ensures a.qrAttempted == qrAttempted
    ensures a.started.Some? <==> activity.Alive?
    ensures a.started.Some? ==> a.started.value == l
    ensures a.result.Success? <==> activity.Gone? || activity.startThrows.None?
    ensures a.result.Failure? ==> a.result.error == Caught(activity.startThrows.value)
  {
    match activity
    case Gone => Attempt(qrAttempted, None, Success)
    case Alive(None) => Attempt(qrAttempted, Some(l), Success)
    case Alive(Some(e)) => Attempt(qrAttempted, Some(l), Failure(Caught(e)))
  }

  /** The try block of `payViaBankApp` for given receivers: decide, produce
      the QR code only when the plan needs it, then start the activity. */
  function RunPlan(spaydReceivers: seq<string>, imageReceivers: seq<string>,
                    spayd: string, qr: QrWrite, activity: Activity): (a: Attempt)
    ensures var plan := Decide(spaydReceivers, imageReceivers);
            && (a.qrAttempted <==> NeedsQr(plan))
            && (a.started.Some? <==> (!NeedsQr(plan) || qr.Written?) && activity.Alive?)
            && (a.started.Some? ==> LaunchPackages(a.started.value) == Packages(plan))
            && (a.started.Some? ==>
                  a.started.value == BuildLaunch(plan, spayd, if NeedsQr(plan) then qr.uri else ""))
            && (a.result.Success? <==>
                  (!NeedsQr(plan) || qr.Written?) && (activity.Gone? || activity.startThrows.None?))
            && (NeedsQr(plan) && qr.WriteThrew? ==>
                  a.result == Failure(QrCodeFileException(qr.error)))
            && ((!NeedsQr(plan) || qr.Written?) && a.result.Failure? ==>
                  a.result.error == Caught(activity.startThrows.value))
  {
    var plan := Decide(spaydReceivers, imageReceivers);
    if NeedsQr(plan) then
      match GenerateQrCodeUri(qr)
      case Thrown(e) => Attempt(true, None, Failure(Caught(e)))
      case Ok(uri) => Start(BuildLaunch(plan, spayd, uri), activity, true)
    else
      Start(BuildLaunch(plan, spayd, ""), activity, false)
  }

  /** `payViaBankApp`: resolve both receiver lists, then dispatch. */
  function PayViaBankApp(pm: PackageManager, bankApps: seq<string>, spayd: string,
                         qr: QrWrite, activity: Activity): (a: Attempt)
    ensures a.result.Failure? ==>
              a.result.error.QrCodeFileException? || a.result.error.BankAppOpeningException?
    ensures activity.Gone? ==> a.started.None?
    ensures activity.Gone? && (qr.Written? || !a.qrAttempted) ==> a.result.Success?
  {
    RunPlan(SpaydReceivers(pm), ImageReceivers(pm, bankApps), spayd, qr, activity)
  }

  /** `getSupportedBankAppIcon`, selection only: the package whose icon is
      shown when exactly one app would be opened without a chooser. */
  function SupportedBankAppIcon(pm: PackageManager, bankApps: seq<string>): (r: Option<string>)
    ensures var plan := Decide(SpaydReceivers(pm), ImageReceivers(pm, bankApps));
            (r.Some? <==> !plan.Chooser?) && (r.Some? ==> r.value == plan.pkg)
  {
    var spaydReceivers := SpaydReceivers(pm);
    var imageReceivers := ImageReceivers(pm, bankApps);
    if |spaydReceivers| == 1 && |imageReceivers| == 0 then Some(spaydReceivers[0])
    else if |imageReceivers| == 1 && |spaydReceivers| == 0 then Some(imageReceivers[0])
    else None
  }

  // ---------------------------------------------------------------------------
  // Properties relating the public operations
  // ---------------------------------------------------------------------------

  /** The feature is reported supported exactly when a payment would open or
      pin at least one app. */
  lemma SupportedIffPlanHasTarget(pm: PackageManager, bankApps: seq<string>)
    ensures IsPayViaBankAppSupported(pm, bankApps) <==>
              |Packages(Decide(SpaydReceivers(pm), ImageReceivers(pm, bankApps)))| > 0
  {
    PlanHasTargetIffReceivers(SpaydReceivers(pm), ImageReceivers(pm, bankApps));
  }

  /** When an icon is offered and the launch goes through, the app started
      is the one whose icon was shown. */
  lemma IconMatchesLaunchedApp(pm: PackageManager, bankApps: seq<string>,
                               spayd: string, uri: string)
    requires SupportedBankAppIcon(pm, bankApps).Some?
    ensures var a := PayViaBankApp(pm, bankApps, spayd, Written(uri), Alive(None));
            a.started.Some? && a.started.value.StartDirect? &&
            a.started.value.intent.pkg == SupportedBankAppIcon(pm, bankApps).value
  {
  }

  /** A package that cannot take a payment descriptor and is not on the
      allow-list is never opened or pinned, and every app sent the QR image
      is on the allow-list. */
  lemma AllowListFilters(pm: PackageManager, bankApps: seq<string>, spayd: string,
                         qr: QrWrite, activity: Activity, p: string)
    requires p !in bankApps
    requires forall k :: 0 <= k < |pm(SPAYD_QUERY)| ==> pm(SPAYD_QUERY)[k].packageName != p
    ensures p !in Packages(Decide(SpaydReceivers(pm), ImageReceivers(pm, bankApps)))
    ensures var a := PayViaBankApp(pm, bankApps, spayd, qr, activity);
            a.started.Some? ==> p !in LaunchPackages(a.started.value)
    ensures TargetsFrom(Decide(SpaydReceivers(pm), ImageReceivers(pm, bankApps)),
                        SpaydReceivers(pm), bankApps)
  {
    var plan := Decide(SpaydReceivers(pm), ImageReceivers(pm, bankApps));
    assert p !in SpaydReceivers(pm);
    assert p !in ImageReceivers(pm, bankApps);
  }

  /** Pure descriptor plans never touch the file system: with only SPAYD
      receivers the outcome is the same whatever the QR step would do. */
  lemma NoQrForSpaydOnly(spaydReceivers: seq<string>, spayd: string,
                         qr1: QrWrite, qr2: QrWrite, activity: Activity)
    requires |spaydReceivers| > 0
    ensures !RunPlan(spaydReceivers, [], spayd, qr1, activity).qrAttempted
    ensures RunPlan(spaydReceivers, [], spayd, qr1, activity) ==
            RunPlan(spaydReceivers, [], spayd, qr2, activity)
  {
  }

  /** A plan that needs no QR code carries no QR URI: the descriptor is the
      only payload that reaches `startActivity`, whatever URI is passed. */
  lemma NoQrUriWithoutQrFile(spaydReceivers: seq<string>, imageReceivers: seq<string>,
                             spayd: string, uri: string)
    requires !NeedsQr(Decide(spaydReceivers, imageReceivers))
    ensures var l := BuildLaunch(Decide(spaydReceivers, imageReceivers), spayd, uri);
            && (l.StartDirect? ==> l.intent.payload == SpaydExtra(spayd))
            && (l.StartChooser? ==>
                  l.generic == SpaydExtra(spayd) &&
                  forall k :: 0 <= k < |l.initial| ==> l.initial[k].payload == SpaydExtra(spayd))
  {
  }

  /** With no receiver of either kind the call still produces the QR code and
      offers an image chooser with nothing pinned; it succeeds unless the QR
      step or the launch throws. */
  lemma NoReceiversStillShowsChooser(spayd: string, uri: string)
    ensures RunPlan([], [], spayd, Written(uri), Alive(None)) ==
            Attempt(true, Some(StartChooser(QrStream(uri), [])), Success)
  {
  }
}
