/** The trader app's validation of history bars: the server's sanitising once more, then its own outlier pass. */
module ChartValidation {
  import opened Prelude
  import opened Candles
  import opened CandleBuckets
  import opened ChartBars
  import LiveBars
  import Sorting

  function CloseOf(xs: seq<Candle>): seq<real> { seq(|xs|, i requires 0 <= i < |xs| => xs[i].c) }

  function Reference(xs: seq<Candle>, refPrice: Option<real>): real
    requires xs != []
  {
    if refPrice.Some? && refPrice.value > 0.0 then refPrice.value else Sorting.Median(CloseOf(xs))
  }

  function NearReference(price: real): Candle -> bool { BandTest(price * 0.75, price * 1.25) }

  function DropOutliers(xs: seq<Candle>, refPrice: Option<real>): seq<Candle>
  {
    if |xs| < 8 then xs
    else if !(Reference(xs, refPrice) > 0.0) then xs
    else
      var near := Filter(xs, NearReference(Reference(xs, refPrice)));
      if |near| >= Max(5, |xs| / 2) then near else xs
  }

  function Validated(bars: seq<Bar>, fromSec: Option<int>, toSec: Option<int>, refPrice: Option<real>): seq<Bar>
  {
    AsBars(DropOutliers(Sanitize(Raws(AsCandles(bars)), fromSec, toSec), refPrice))
  }

  method ValidateBars(bars: seq<Bar>, fromSec: Option<int>, toSec: Option<int>, refPrice: Option<real>) returns (out: seq<Bar>)
    ensures out == Validated(bars, fromSec, toSec, refPrice)
  {
    var cleaned: seq<Bar> := [];
    ghost var raws := Raws(AsCandles(bars));
    for i := 0 to |bars|
      invariant AsCandles(cleaned) == Kept(raws[..i], fromSec, toSec) && AsBars(AsCandles(cleaned)) == cleaned
    {
      assert raws[..i + 1][..i] == raws[..i];
      SameValidity(bars[i]);
      if LiveBars.IsValidBar(bars[i]) {
        var b := LiveBars.NormalizeBar(bars[i]);
        if !(fromSec.Some? && b.time < fromSec.value) && !(toSec.Some? && b.time > toSec.value) {
          cleaned := cleaned + [b];
        }
      }
    }
    assert raws[..|bars|] == raws;
    ghost var kept := Kept(raws, fromSec, toSec);
    StableSortSound(kept);
    var deduped := Dedupe(StableSort(AsCandles(cleaned)));
    ListingSound(kept);
    AscendingIsDetermined(deduped, Listing(kept));
    out := AsBars(DropOutliers(deduped, refPrice));
  }

  /** A chart bar is valid, and normalises, exactly as the server's candle of the same figures. */
  lemma SameValidity(b: Bar)
    ensures LiveBars.IsValidBar(b) <==> IsValidHistoryCandle(Raw(AsCandle(b)))
    ensures LiveBars.IsValidBar(b) ==> AsCandle(LiveBars.NormalizeBar(b)) == Normalize(Raw(AsCandle(b)))
    ensures AsBar(AsCandle(LiveBars.NormalizeBar(b))) == LiveBars.NormalizeBar(b)
  {
  }

  lemma DropOutliersSound(xs: seq<Candle>, refPrice: Option<real>)
    requires Ascending(xs)
    ensures var out := DropOutliers(xs, refPrice);
            && Ascending(out) && (forall x :: x in out ==> x in xs)
            && (out == xs || (xs != [] && |out| >= Max(5, |xs| / 2)
                              && forall x :: x in out <==> x in xs && NearReference(Reference(xs, refPrice))(x)))
  {
    if |xs| >= 8 {
      FilterSound(xs, NearReference(Reference(xs, refPrice)));
    }
  }

  /** With a reference price, bars that were validated once pass a second validation unchanged. */
  lemma ValidationWithReferenceIsIdempotent(bars: seq<Bar>, fromSec: Option<int>, toSec: Option<int>, price: real)
    requires price > 0.0
    ensures var once := Validated(bars, fromSec, toSec, Some(price)); Validated(once, fromSec, toSec, Some(price)) == once
  {
    var s := Sanitize(Raws(AsCandles(bars)), fromSec, toSec);
    var kept := DropOutliers(s, Some(price));
    SanitizedIsClean(Raws(AsCandles(bars)), fromSec, toSec);
    DropOutliersSound(s, Some(price));
    KeptOfClean(kept, fromSec, toSec);
    ListingOfAscending(kept);
    AsCandlesOfAsBars(kept);
    DropOutliersTwice(s, price);
  }

  lemma DropOutliersTwice(xs: seq<Candle>, price: real)
    requires price > 0.0 && Ascending(xs)
    ensures DropOutliers(DropOutliers(xs, Some(price)), Some(price)) == DropOutliers(xs, Some(price))
  {
    var once := DropOutliers(xs, Some(price));
    DropOutliersSound(xs, Some(price));
    if once != xs && |once| >= 8 {
      FilterAll(once, NearReference(price));
    }
  }
}
