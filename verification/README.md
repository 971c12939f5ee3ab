# Pay via bank app — dispatch decision model

A Dafny model of the Android side of the *pay via bank app* library. The
library takes a SPAYD (Short Payment Descriptor) string and hands it to an
installed banking app. If no app accepts the descriptor, it falls back to a
QR-code image of the descriptor.

The model covers the part of `SpaydPayViaBankAppResolver` (Android) that makes
decisions:

- **Receiver resolution** (`PackageQuery`, `Receivers`). SPAYD receivers are the
  distinct packages that can `ACTION_VIEW` an
  `application/x-shortpaymentdescriptor`. Image receivers are the distinct
  packages that can `ACTION_SEND` an `image/*` and are also on the bank-app
  allow-list. Deduplication is Kotlin's `distinct()`, which keeps first
  occurrences. The allow-list intersection is Kotlin's `intersect`, which keeps
  the order of the receiver list.
- **The dispatch decision** (`Dispatch`). This is the `when` of `payViaBankApp`.
  It chooses one of: open the single SPAYD app, open the single image app, a
  chooser over the SPAYD intent, a chooser over the image intent, or the
  combined image chooser. It also decides whether a QR code is needed and the
  order of the pinned (initial) targets. The same decision is also written as
  a 3 × 3 table over receiver counts (zero / one / many), and a lemma proves
  the two agree.
- **The public operations and error mapping** (`Resolver`):
  - `isPayViaBankAppSupported`.
  - The selection part of `getSupportedBankAppIcon`.
  - `payViaBankApp`: QR generation, launch and result.
  - A QR-file failure comes back as the `QrCodeFileException` itself. Any other
    exception is wrapped in `BankAppOpeningException`.

The operating system is modelled through parameters:

- The package manager is a total function from a query intent to the resolved
  activities. It is a snapshot of the installed apps.
- Writing the QR file is a `QrWrite` oracle. It gives a URI, or the exception
  thrown.
- The weakly referenced activity is an `Activity` oracle. It is either gone, or
  alive with a `startActivity` that returns or throws.

Files: `package_query.dfy`, `receivers.dfy`, `dispatch.dfy`, `resolver.dfy`.

### Behaviour worth noting

- `payViaBankApp` has no error for "no receiver at all". With no receiver of
  either kind it takes the `else` branch. It still generates the QR code, opens
  an image chooser with nothing pinned, and returns success. See
  `Resolver.NoReceiversStillShowsChooser`.
- One SPAYD receiver together with any image receiver goes to the combined
  chooser, not to a direct launch.
- Receivers are ordered lists. Each chooser pins them in the order the platform
  resolved them. A package that is in both lists is pinned twice: once for the
  image and once for the descriptor.
- The generic chooser intent in the combined branch is the image intent.
- When the activity has already been collected, nothing is launched. The result
  is still success, unless the plan needs a QR code and writing the QR file
  fails. The QR file is written before the activity is looked up.

## Model

| member | source | states |
|---|---|---|
| PackageQuery.Distinct | shared/src/androidMain/kotlin/io/stepuplabs/pvba/PackageManager.android.kt:20 | `distinct()` result has no duplicates and holds exactly the elements of its input |
| PackageQuery.DistinctOrder | shared/src/androidMain/kotlin/io/stepuplabs/pvba/PackageManager.android.kt:20 | `distinct()` lists elements in the order of their first occurrence |
| PackageQuery.DistinctCharacterized | shared/src/androidMain/kotlin/io/stepuplabs/pvba/PackageManager.android.kt:20 | a list equals `distinct()` of the input iff it is duplicate-free, has the same elements and is in first-occurrence order |
| PackageQuery.DistinctOfNoDup | shared/src/androidMain/kotlin/io/stepuplabs/pvba/PackageManager.android.kt:20 | deduplicating an already duplicate-free list returns it unchanged |
| PackageQuery.DistinctPass | shared/src/androidMain/kotlin/io/stepuplabs/pvba/PackageManager.android.kt:20 | the one-pass seen-set loop computes exactly `distinct()` |
| PackageQuery.IntentReceivers | shared/src/androidMain/kotlin/io/stepuplabs/pvba/PackageManager.android.kt:7-21 | a null intent yields no receivers; otherwise a package appears exactly when some resolved activity belongs to it, and none appears twice |
| PackageQuery.IntentReceiversOrder | shared/src/androidMain/kotlin/io/stepuplabs/pvba/PackageManager.android.kt:20 | receivers are ordered by the first resolved activity of each package |
| Receivers.Intersect | shared/src/androidMain/kotlin/io/stepuplabs/pvba/SpaydBankAppPaymentResolver.android.kt:155 | `intersect` gives the duplicate-free list of elements that are in both lists |
| Receivers.IntersectOrder | shared/src/androidMain/kotlin/io/stepuplabs/pvba/SpaydBankAppPaymentResolver.android.kt:155 | `intersect` keeps the first-occurrence order of the receiving list |
| Receivers.SpaydReceivers | shared/src/androidMain/kotlin/io/stepuplabs/pvba/SpaydBankAppPaymentResolver.android.kt:146-150 | SPAYD receivers are exactly the packages of the activities that can view a descriptor, without duplicates or filtering |
| Receivers.ImageReceivers | shared/src/androidMain/kotlin/io/stepuplabs/pvba/SpaydBankAppPaymentResolver.android.kt:152-156 | image receivers are duplicate-free, always on the allow-list, and are exactly the allow-listed packages that can receive an image |
| Receivers.DefaultListExcludesGallery | shared/src/androidMain/kotlin/io/stepuplabs/pvba/SpaydBankAppPaymentResolver.android.kt:191-202 | with the default allow-list, only listed bank apps can be image receivers, so a photo gallery never is |
| Receivers.ImageReceiversOrder | shared/src/androidMain/kotlin/io/stepuplabs/pvba/SpaydBankAppPaymentResolver.android.kt:152-156 | image receivers keep the platform's resolution order |
| Receivers.IsPayViaBankAppSupported | shared/src/androidMain/kotlin/io/stepuplabs/pvba/SpaydBankAppPaymentResolver.android.kt:32-34 | supported iff some activity can view a descriptor or some allow-listed package can receive an image |
| Dispatch.Decide | shared/src/androidMain/kotlin/io/stepuplabs/pvba/SpaydBankAppPaymentResolver.android.kt:93-137 | every opened or pinned package is a receiver, and each gets the payload its own list says it can take |
| Dispatch.DecideFollowsTable | shared/src/androidMain/kotlin/io/stepuplabs/pvba/SpaydBankAppPaymentResolver.android.kt:93-137 | the first-match guard chain equals an exhaustive, one-branch-per-cell table over (SPAYD count, image count) |
| Dispatch.NeedsQrExactly | shared/src/androidMain/kotlin/io/stepuplabs/pvba/SpaydBankAppPaymentResolver.android.kt:95-127 | a QR code is needed exactly in the image-direct, image-chooser and combined branches, i.e. iff there is an image receiver or no SPAYD receiver |
| Dispatch.SingleSpaydLaunched | shared/src/androidMain/kotlin/io/stepuplabs/pvba/SpaydBankAppPaymentResolver.android.kt:95-97 | the SPAYD app is launched directly iff there is exactly one SPAYD receiver and no image receiver, and it is that receiver |
| Dispatch.SingleImageLaunched | shared/src/androidMain/kotlin/io/stepuplabs/pvba/SpaydBankAppPaymentResolver.android.kt:99-103 | the image app is launched directly iff there is exactly one image receiver and no SPAYD receiver, and it is that receiver |
| Dispatch.SpaydOnlyChooser | shared/src/androidMain/kotlin/io/stepuplabs/pvba/SpaydBankAppPaymentResolver.android.kt:105-113 | a SPAYD chooser appears iff there are several SPAYD receivers and no image receiver; it pins exactly the SPAYD receivers, in order |
| Dispatch.ImageOnlyChooser | shared/src/androidMain/kotlin/io/stepuplabs/pvba/SpaydBankAppPaymentResolver.android.kt:115-124 | several image receivers and no SPAYD receiver give an image chooser pinning exactly the image receivers, in order |
| Dispatch.CombinedChooserOrder | shared/src/androidMain/kotlin/io/stepuplabs/pvba/SpaydBankAppPaymentResolver.android.kt:125-136 | with both kinds or neither, the image chooser pins every image receiver as an image target, then every SPAYD receiver as a SPAYD target; it pins nothing when both are empty |
| Dispatch.CombinedChooserKeepsBothRoles | shared/src/androidMain/kotlin/io/stepuplabs/pvba/SpaydBankAppPaymentResolver.android.kt:131 | a package on both lists is pinned once as an image target and once as a SPAYD target |
| Dispatch.PlanHasTargetIffReceivers | shared/src/androidMain/kotlin/io/stepuplabs/pvba/SpaydBankAppPaymentResolver.android.kt:93-137 | the plan opens or pins some app iff some receiver exists |
| Resolver.GenerateQrCodeUri | shared/src/androidMain/kotlin/io/stepuplabs/pvba/SpaydBankAppPaymentResolver.android.kt:158-188 | QR generation returns the written URI, and any failure comes out as a `QrCodeFileException` wrapping the cause |
| Resolver.Caught | shared/src/androidMain/kotlin/io/stepuplabs/pvba/SpaydBankAppPaymentResolver.android.kt:139-143 | a surfaced error is always one of the two library exceptions; a `QrCodeFileException` is kept as is and anything else is wrapped |
| Resolver.BuildLaunch | shared/src/androidMain/kotlin/io/stepuplabs/pvba/SpaydBankAppPaymentResolver.android.kt:61-90 | the intent started addresses exactly the plan's packages, in order; a direct SPAYD launch carries the descriptor, a direct image launch the QR URI, and every chooser intent the payload of its kind |
| Resolver.Start | shared/src/androidMain/kotlin/io/stepuplabs/pvba/SpaydBankAppPaymentResolver.android.kt:135 | an activity that is gone starts nothing and succeeds; a throwing `startActivity` fails with the caught exception |
| Resolver.RunPlan | shared/src/androidMain/kotlin/io/stepuplabs/pvba/SpaydBankAppPaymentResolver.android.kt:92-143 | writing the QR file is attempted iff the plan needs it; the intent started is the one built for the plan with the QR URI (if any); QR failure returns the `QrCodeFileException` and starts nothing; success iff no step threw; the launch addresses the plan's packages |
| Resolver.PayViaBankApp | shared/src/androidMain/kotlin/io/stepuplabs/pvba/SpaydBankAppPaymentResolver.android.kt:54-144 | failures are only `QrCodeFileException` or `BankAppOpeningException`; with the activity gone nothing starts and the call succeeds unless the QR file failed |
| Resolver.SupportedBankAppIcon | shared/src/androidMain/kotlin/io/stepuplabs/pvba/SpaydBankAppPaymentResolver.android.kt:39-49 | an icon package is returned exactly when the plan is a direct launch, and it is the launched package |
| Resolver.SupportedIffPlanHasTarget | shared/src/androidMain/kotlin/io/stepuplabs/pvba/SpaydBankAppPaymentResolver.android.kt:32-34 | reported supported iff a payment would open or pin at least one app |
| Resolver.IconMatchesLaunchedApp | shared/src/androidMain/kotlin/io/stepuplabs/pvba/SpaydBankAppPaymentResolver.android.kt:39-49 | when an icon is offered, a successful payment starts that very package directly |
| Resolver.AllowListFilters | shared/src/androidMain/kotlin/io/stepuplabs/pvba/SpaydBankAppPaymentResolver.android.kt:152-156 | a package that is neither allow-listed nor SPAYD-capable is never opened or pinned, and image targets are always allow-listed |
| Resolver.NoQrForSpaydOnly | shared/src/androidMain/kotlin/io/stepuplabs/pvba/SpaydBankAppPaymentResolver.android.kt:95-113 | with only SPAYD receivers no QR code is made, and the QR oracle cannot affect the outcome |
| Resolver.NoQrUriWithoutQrFile | shared/src/androidMain/kotlin/io/stepuplabs/pvba/SpaydBankAppPaymentResolver.android.kt:95-113 | a plan that needs no QR code sends only the descriptor, so no QR URI reaches `startActivity` |
| Resolver.NoReceiversStillShowsChooser | shared/src/androidMain/kotlin/io/stepuplabs/pvba/SpaydBankAppPaymentResolver.android.kt:125-138 | with no receivers the call makes the QR code, opens an image chooser with nothing pinned, and succeeds |

## Left out

- QR rendering and file writing (cache directory, okio, QR renderer, `FileProvider`, and the SDK-version choice of URI) are not modelled. The `QrWrite` oracle stands in for them: it gives an opaque URI or the exception thrown.
- Intent details are not modelled: MIME strings on the started intents, the `FLAG_GRANT_READ_URI_PERMISSION` flag, `ClipData` and the chooser title. Only each intent's target package and its payload (descriptor or QR URI) are kept.
- `startActivity` and the `WeakReference<Activity>` lookup are Android framework calls. The `Activity` oracle replaces them.
- The Tiramisu / pre-Tiramisu split in `intentReceivers` is not modelled. Both branches make the same query with `MATCH_DEFAULT_ONLY`.
- Only `Exception`s are modelled as thrown values. The source catches `Exception` in `payViaBankApp` and in `generateQrCodeUri`. A `java.lang.Error` thrown by `startActivity` or by QR rendering escapes uncaught and produces no `Result`. The model does not represent that.
- The package manager is treated as a snapshot. In the source, each public call queries it again, so apps installed or removed between `isPayViaBankAppSupported` and `payViaBankApp` can change the answer. The model cannot express that.
- Exceptions from the package-manager queries are not modelled. They happen outside the `try` block and propagate uncaught. In the model the query function is total.
- `getApplicationIcon` is not modelled. It loads a `Drawable` and may throw for an uninstalled package. The model stops at choosing the package.
- The iOS implementation is not modelled. It is UIKit and CoreImage glue, and it reports support unconditionally.
- The common `expect` declarations contain only signatures, so there is nothing to model.
- The UI and demo code are not modelled, and neither is the build configuration.
