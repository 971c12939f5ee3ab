// The dispatch decision of `payViaBankApp`: from the SPAYD receivers and
// the image receivers, choose to open one app straight away or to show a
// chooser with some apps pinned as its initial targets, and say whether a
// QR-code image has to be produced for it.

module Dispatch {

  /** How a target app is handed the payment: the descriptor itself, or a
      QR-code image of it. */
  datatype Kind = Spayd | Image

  /** One pinned entry of a chooser: an app and the payload it is sent. */
  datatype Target = Target(pkg: string, kind: Kind)

  /** The five outcomes of the decision. A chooser is built over the generic
      intent of kind `base`, with `initial` pinned ahead of other handlers. */
  datatype Plan =
    | LaunchSpayd(pkg: string)
    | LaunchImage(pkg: string)
    | Chooser(base: Kind, initial: seq<Target>)

  /** Every package in `pkgs`, each tagged with `kind`, in the same order. */
  function Tagged(pkgs: seq<string>, kind: Kind): (r: seq<Target>)
    ensures |r| == |pkgs|
    ensures forall k :: 0 <= k < |r| ==> r[k] == Target(pkgs[k], kind)
  {
    seq(|pkgs|, k requires 0 <= k < |pkgs| => Target(pkgs[k], kind))
  }

  /** The packages a plan opens or pins, in order. */
  function Packages(plan: Plan): (r: seq<string>)
    ensures plan.Chooser? ==> |r| == |plan.initial|
    ensures plan.Chooser? ==> forall k :: 0 <= k < |r| ==> r[k] == plan.initial[k].pkg
    ensures !plan.Chooser? ==> r == [plan.pkg]
  {
    match plan
    case LaunchSpayd(p) => [p]
    case LaunchImage(p) => [p]
    case Chooser(_, initial) => seq(|initial|, k requires 0 <= k < |initial| => initial[k].pkg)
  }

  /** A plan needs the QR-code image when it opens an image intent, either
      directly or as the chooser's base intent. */
  predicate NeedsQr(plan: Plan) {
    match plan
    case LaunchSpayd(_) => false
    case LaunchImage(_) => true
    case Chooser(base, _) => base == Image
  }

  /** Every pinned target is sent the payload its package was found able
      to take: image targets come from `image`, SPAYD targets from `spayd`. */
  predicate TargetsFrom(plan: Plan, spayd: seq<string>, image: seq<string>) {
    match plan
    case LaunchSpayd(p) => p in spayd
    case LaunchImage(p) => p in image
    case Chooser(_, initial) =>
      forall t :: t in initial ==>
        (t.kind == Spayd ==> t.pkg in spayd) && (t.kind == Image ==> t.pkg in image)
  }

  /** The `when` of `payViaBankApp`, first matching branch wins. */
  function Decide(spayd: seq<string>, image: seq<string>): (plan: Plan)
    ensures TargetsFrom(plan, spayd, image)
    ensures forall p :: p in Packages(plan) ==> p in spayd || p in image
  {
    if |spayd| == 1 && |image| == 0 then LaunchSpayd(spayd[0])
    else if |image| == 1 && |spayd| == 0 then LaunchImage(image[0])
    else if |spayd| > 0 && |image| == 0 then Chooser(Spayd, Tagged(spayd, Spayd))
    else if |image| > 0 && |spayd| == 0 then Chooser(Image, Tagged(image, Image))
    else Chooser(Image, Tagged(image, Image) + Tagged(spayd, Spayd))
  }

  // ---------------------------------------------------------------------------
  // The decision as a table over receiver counts
  // ---------------------------------------------------------------------------

  datatype Count = Zero | One | Many

  function CountOf(s: seq<string>): (c: Count)
    ensures c == Zero <==> |s| == 0
    ensures c == One <==> |s| == 1
  {
    if |s| == 0 then Zero else if |s| == 1 then One else Many
  }

  /** The branches of the decision, named after what they show. */
  datatype Branch = DirectSpayd | DirectImage | SpaydChooser | ImageChooser | CombinedChooser

  /** The decision written as the full 3 x 3 table of receiver counts
      (SPAYD count, image count): one branch per cell, so the branches are
      exhaustive and mutually exclusive. */
  function TableBranch(spaydCount: Count, imageCount: Count): Branch {
    match (spaydCount, imageCount)
    case (Zero, Zero) => CombinedChooser
    case (Zero, One) => DirectImage
    case (Zero, Many) => ImageChooser
    case (One, Zero) => DirectSpayd
    case (One, One) => CombinedChooser
    case (One, Many) => CombinedChooser
    case (Many, Zero) => SpaydChooser
    case (Many, One) => CombinedChooser
    case (Many, Many) => CombinedChooser
  }

  /** The plan each branch builds from the receivers. */
  function PlanOf(b: Branch, spayd: seq<string>, image: seq<string>): Plan
    requires b == DirectSpayd ==> |spayd| > 0
    requires b == DirectImage ==> |image| > 0
  {
    match b
    case DirectSpayd => LaunchSpayd(spayd[0])
    case DirectImage => LaunchImage(image[0])
    case SpaydChooser => Chooser(Spayd, Tagged(spayd, Spayd))
    case ImageChooser => Chooser(Image, Tagged(image, Image))
    case CombinedChooser => Chooser(Image, Tagged(image, Image) + Tagged(spayd, Spayd))
  }

  /** The chain of guards agrees with the table on every input. */
  lemma DecideFollowsTable(spayd: seq<string>, image: seq<string>)
    ensures var b := TableBranch(CountOf(spayd), CountOf(image));
            (b == DirectSpayd ==> |spayd| > 0) && (b == DirectImage ==> |image| > 0) &&
            Decide(spayd, image) == PlanOf(b, spayd, image)
  {
  }

  /** A QR code is produced exactly in the direct-image, image-chooser and
      combined branches: whenever some image receiver exists, or no SPAYD
      receiver does. */
  lemma NeedsQrExactly(spayd: seq<string>, image: seq<string>)
    ensures var b := TableBranch(CountOf(spayd), CountOf(image));
            NeedsQr(Decide(spayd, image)) <==> b in {DirectImage, ImageChooser, CombinedChooser}
    ensures NeedsQr(Decide(spayd, image)) <==> |image| > 0 || |spayd| == 0
  {
  }

  /** Exactly one SPAYD receiver and no image receiver: that app is opened
      with the descriptor, and in no other case is an app opened that way. */
  lemma SingleSpaydLaunched(spayd: seq<string>, image: seq<string>)
    ensures Decide(spayd, image).LaunchSpayd? <==> |spayd| == 1 && |image| == 0
    ensures |spayd| == 1 && |image| == 0 ==> Decide(spayd, image) == LaunchSpayd(spayd[0])
  {
  }

  /** Exactly one image receiver and no SPAYD receiver: that app is opened
      with the QR image, and in no other case is an app opened that way. */
  lemma SingleImageLaunched(spayd: seq<string>, image: seq<string>)
    ensures Decide(spayd, image).LaunchImage? <==> |image| == 1 && |spayd| == 0
    ensures |image| == 1 && |spayd| == 0 ==> Decide(spayd, image) == LaunchImage(image[0])
  {
  }

  /** Several SPAYD receivers and no image receiver give a chooser over the
      generic SPAYD intent pinning exactly those receivers, in order; this is
      the only SPAYD-based chooser. */
  lemma SpaydOnlyChooser(spayd: seq<string>, image: seq<string>)
    ensures (Decide(spayd, image).Chooser? && Decide(spayd, image).base == Spayd) <==>
              |spayd| > 1 && |image| == 0
    ensures |spayd| > 1 && |image| == 0 ==>
              Packages(Decide(spayd, image)) == spayd &&
              forall t :: t in Decide(spayd, image).initial ==> t.kind == Spayd
  {
  }

  /** Several image receivers and no SPAYD receiver give a chooser over the
      generic image intent pinning exactly those receivers, in order. */
  lemma ImageOnlyChooser(spayd: seq<string>, image: seq<string>)
    requires |image| > 1 && |spayd| == 0
    ensures Decide(spayd, image) == Chooser(Image, Tagged(image, Image))
    ensures Packages(Decide(spayd, image)) == image
  {
  }

  /** Both kinds present, or neither: an image chooser pinning every image
      receiver and then every SPAYD receiver, without removing a package
      that is in both lists; with neither present nothing is pinned. */
  lemma CombinedChooserOrder(spayd: seq<string>, image: seq<string>)
    requires (|spayd| > 0 && |image| > 0) || (|spayd| == 0 && |image| == 0)
    ensures Decide(spayd, image).Chooser? && Decide(spayd, image).base == Image
    ensures Packages(Decide(spayd, image)) == image + spayd
    ensures |Decide(spayd, image).initial| == |image| + |spayd|
    ensures forall k :: 0 <= k < |image| ==>
              Decide(spayd, image).initial[k] == Target(image[k], Image)
    ensures forall k :: 0 <= k < |spayd| ==>
              Decide(spayd, image).initial[|image| + k] == Target(spayd[k], Spayd)
    ensures |spayd| == 0 && |image| == 0 ==> Decide(spayd, image).initial == []
  {
    var plan := Decide(spayd, image);
    assert Packages(plan) == image + spayd;
  }

  /** A package on both lists is pinned twice in the combined chooser. */
  lemma CombinedChooserKeepsBothRoles(spayd: seq<string>, image: seq<string>, p: string)
    requires p in spayd && p in image
    ensures Target(p, Image) in Decide(spayd, image).initial
    ensures Target(p, Spayd) in Decide(spayd, image).initial
  {
    var i :| 0 <= i < |image| && image[i] == p;
    var j :| 0 <= j < |spayd| && spayd[j] == p;
    var initial := Decide(spayd, image).initial;
    assert initial[i] == Target(p, Image);
    assert initial[|image| + j] == Target(p, Spayd);
  }

  /** A plan opens or pins some app exactly when some receiver exists. */
  lemma PlanHasTargetIffReceivers(spayd: seq<string>, image: seq<string>)
    ensures |Packages(Decide(spayd, image))| > 0 <==> |spayd| > 0 || |image| > 0
  {
  }
}
