// Receiver resolution of the Android resolver: which installed packages can
// take a payment descriptor directly (SPAYD receivers) and which trusted bank
// apps can take a shared image (image receivers).

module Receivers {
  import opened PackageQuery

  /** `Intent(ACTION_VIEW)` typed as a short payment descriptor. */
  const SPAYD_QUERY: QueryIntent := QueryIntent(ACTION_VIEW, SPAYD_MIME_TYPE)

  /** `Intent(ACTION_SEND)` typed as any image. */
  const IMAGE_QUERY: QueryIntent := QueryIntent(ACTION_SEND, IMAGE_MIME_TYPE)

  /** The bank-app allow-list used when the resolver is built without one. */
  const DEFAULT_BANK_APP_PACKAGES: seq<string> := [
    "cz.rb.app.smartphonebanking",
    "eu.inmite.prj.kb.mobilbank",
    "cz.kb.ndb",
    "cz.csas.georgego",
    "cz.csob.smart",
    "cz.moneta.smartbanka",
    "cz.fio.sb2",
    "cz.airbank.android",
    "cz.creditas.richee",
    "cz.pbktechnology.partners.client"
  ]

  /** The elements of `xs` that are in `ys`, in the order of `xs`. */
  function Retain(xs: seq<string>, ys: seq<string>): (r: seq<string>)
    ensures |r| <= |xs|
    ensures forall p :: p in r <==> p in xs && p in ys
    ensures NoDup(xs) ==> NoDup(r)
  {
    if |xs| == 0 then []
    else if xs[0] in ys then [xs[0]] + Retain(xs[1..], ys)
    else Retain(xs[1..], ys)
  }

  /** Keeping a subsequence keeps any ordering by a key. */
  lemma {:induction false} RetainKeepsOrder(xs: seq<string>, ys: seq<string>, s: seq<string>)
    requires FirstOccurrenceOrder(s, xs)
    ensures FirstOccurrenceOrder(s, Retain(xs, ys))
  {
    if |xs| > 0 {
      var tail := xs[1..];
      assert FirstOccurrenceOrder(s, tail) by {
        forall i, j | 0 <= i < j < |tail|
          ensures IndexOf(s, tail[i]) < IndexOf(s, tail[j])
        {
          assert tail[i] == xs[i + 1] && tail[j] == xs[j + 1];
        }
      }
      RetainKeepsOrder(tail, ys, s);
      if xs[0] in ys {
        var r := Retain(xs, ys);
        var rt := Retain(tail, ys);
        forall i, j | 0 <= i < j < |r|
          ensures IndexOf(s, r[i]) < IndexOf(s, r[j])
        {
          if i == 0 {
            assert r[j] == rt[j - 1] && rt[j - 1] in tail;
            var k :| 0 <= k < |tail| && tail[k] == r[j];
            assert r[j] == xs[k + 1];
          } else {
            assert r[i] == rt[i - 1] && r[j] == rt[j - 1];
          }
        }
      }
    }
  }

  /** Kotlin's `Iterable.intersect`: the distinct elements of `xs` that
      also occur in `ys`, kept in the order of `xs`. */
  function Intersect(xs: seq<string>, ys: seq<string>): (r: seq<string>)
    ensures NoDup(r)
    ensures forall p :: p in r <==> p in xs && p in ys
  {
    Retain(Distinct(xs), ys)
  }

  /** The intersection lists its elements in the order in which they first
      occur in the receiving list. */
  lemma IntersectOrder(xs: seq<string>, ys: seq<string>)
    ensures FirstOccurrenceOrder(xs, Intersect(xs, ys))
  {
    DistinctOrder(xs);
    RetainKeepsOrder(Distinct(xs), ys, xs);
  }

  /** `getSpaydReceivers`: every package able to view a payment descriptor,
      without any filtering. */
  function SpaydReceivers(pm: PackageManager): (r: seq<string>)
    ensures NoDup(r)
    ensures forall p :: p in r <==>
              exists k :: 0 <= k < |pm(SPAYD_QUERY)| && pm(SPAYD_QUERY)[k].packageName == p
  {
    IntentReceivers(pm, Some(SPAYD_QUERY))
  }

  /** `getImageReceivers`: the packages able to receive a shared image,
      restricted to the bank-app allow-list. */
  function ImageReceivers(pm: PackageManager, bankApps: seq<string>): (r: seq<string>)
    ensures NoDup(r)
    ensures forall p :: p in r ==> p in bankApps
    ensures forall p :: p in r <==>
              p in bankApps &&
              exists k :: 0 <= k < |pm(IMAGE_QUERY)| && pm(IMAGE_QUERY)[k].packageName == p
  {
    Intersect(IntentReceivers(pm, Some(IMAGE_QUERY)), bankApps)
  }

  /** Image receivers keep the order in which the platform resolved them. */
  lemma ImageReceiversOrder(pm: PackageManager, bankApps: seq<string>)
    ensures FirstOccurrenceOrder(PackageNames(pm(IMAGE_QUERY)), ImageReceivers(pm, bankApps))
  {
    var names := PackageNames(pm(IMAGE_QUERY));
    var all := Distinct(names);
    assert IntentReceivers(pm, Some(IMAGE_QUERY)) == all;
    DistinctOfNoDup(all);
    assert ImageReceivers(pm, bankApps) == Retain(all, bankApps);
    DistinctOrder(names);
    RetainKeepsOrder(all, bankApps, names);
  }

  /** `isPayViaBankAppSupported`: some package takes the descriptor, or some
      allow-listed bank app takes an image. */
  function IsPayViaBankAppSupported(pm: PackageManager, bankApps: seq<string>): (r: bool)
    ensures r <==>
              |pm(SPAYD_QUERY)| > 0 ||
              exists k :: 0 <= k < |pm(IMAGE_QUERY)| && pm(IMAGE_QUERY)[k].packageName in bankApps
  {
    var spayd := SpaydReceivers(pm);
    var image := ImageReceivers(pm, bankApps);
    assert |pm(SPAYD_QUERY)| > 0 ==> pm(SPAYD_QUERY)[0].packageName in spayd;
    assert |spayd| > 0 ==> spayd[0] in spayd;
    assert |image| > 0 ==> image[0] in image;
    |spayd| > 0 || |image| > 0
  }

  /** With the default allow-list, a package that is not a listed bank app,
      such as a photo gallery, is never an image receiver, whatever the
      platform resolves. */
  lemma DefaultListExcludesGallery(pm: PackageManager)
    ensures "com.google.android.apps.photos" !in ImageReceivers(pm, DEFAULT_BANK_APP_PACKAGES)
    ensures forall p :: p in ImageReceivers(pm, DEFAULT_BANK_APP_PACKAGES) ==>
              p in DEFAULT_BANK_APP_PACKAGES
  {
    // Every listed package starts with "cz." or "eu.", the gallery with "com".
    assert forall k :: 0 <= k < |DEFAULT_BANK_APP_PACKAGES| ==>
      |DEFAULT_BANK_APP_PACKAGES[k]| > 1 && DEFAULT_BANK_APP_PACKAGES[k][1] != 'o';
  }
}
