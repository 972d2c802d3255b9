/**
 Concrete runs of the classifier and of the counting step on the configured
 table, each proved from the general contracts.
 */
module Scenarios {
  import opened Options
  import opened Denominations
  import opened Classifier
  import opened Segmentation
  import opened Counting

  /** 22.1 mm is a 10: matching follows physical diameter, not the numeric
      order of denominations (10 is smaller than both 2 and 5). */
  lemma TenMatchesByDiameter()
    ensures Classify(22.1, CoinDiameters) == Some(10)
  {
    assert IsFirstClosest(22.1, CoinDiameters, 3, 4);
    ClassifyIff(22.1, CoinDiameters, 10);
  }

  /** 22.5 mm is exactly between 2 (23.0) and 10 (22.0); 2 is scanned first and
      wins the tie. */
  lemma TieGoesToFirstEntry()
    ensures Classify(22.5, CoinDiameters) == Some(2)
  {
    assert IsFirstClosest(22.5, CoinDiameters, 1, 4);
    ClassifyIff(22.5, CoinDiameters, 2);
  }

  /** 26.5 mm differs from 5 (25.0) by exactly the tolerance and matches
      nothing: the tolerance is strict. */
  lemma ToleranceIsStrict()
    ensures Classify(26.5, CoinDiameters) == None
  {
    assert NoneWithin(26.5, CoinDiameters, 4);
  }

  /** 21.16 mm is a 1 (0.66 mm away) rather than a 10 (0.84 mm away). */
  lemma SmallCoinIsOne()
    ensures Classify(21.16, CoinDiameters) == Some(1)
  {
    assert IsFirstClosest(21.16, CoinDiameters, 0, 4);
    ClassifyIff(21.16, CoinDiameters, 1);
  }

  /** The classifications of the two-coin run, as a list. */
  lemma TwoCoinsClassified()
    ensures ClassifyAll([Circle(100, 100, 50), Circle(300, 100, 46)], 0.23)
         == [Classified(Circle(100, 100, 50), Some(2)), Classified(Circle(300, 100, 46), Some(1))]
  {
    var cs := [Circle(100, 100, 50), Circle(300, 100, 46)];
    assert PhysicalDiameter(cs[0], 0.23) == 23.0;
    CoinDiametersWellFormed();
    ClassifyExact(CoinDiameters, 1);
    assert PhysicalDiameter(cs[1], 0.23) == 21.16;
    SmallCoinIsOne();
  }

  /** Two circles of radius 50 and 46 pixels, the larger entered as 2
      (23.0 mm): the ratio is 0.23 mm per pixel, the smaller circle measures
      21.16 mm and is a 1, and the total is 3. */
  lemma TwoCoinsScenario()
    ensures var o := CountCoins([Circle(100, 100, 50), Circle(300, 100, 46)], Some(2.0));
            && o.Counted?
            && o.ratio == 0.23
            && o.classified[0].denomination == Some(2)
            && o.classified[1].denomination == Some(1)
            && o.total == 3
  {
    var cs := [Circle(100, 100, 50), Circle(300, 100, 46)];
    assert Largest(cs) == 0;
    CoinDiametersWellFormed();
    FindKeyUnique(CoinDiameters, 1);
    assert CalibrationDiameter(Some(2.0)) == Some(23.0);
    assert Ratio(23.0, 50) == 0.23;
    assert CountCoins(cs, Some(2.0)) == Tally(cs, 0.23);
    TwoCoinsClassified();
    var cls := [Classified(cs[0], Some(2)), Classified(cs[1], Some(1))];
    assert cls[..1] == [cls[0]] && cls[..1][..0] == [];
    assert Total(cls[..1]) == 2;
    assert Total(cls) == 3;
  }

  /** A cancelled prompt stops the run: no total is produced. */
  lemma CancelledPromptScenario()
    ensures CountCoins([Circle(100, 100, 50)], None) == CalibrationRejected
  {
  }

  /** 3.0 is not a denomination: the run stops without a total. */
  lemma UnknownDenominationScenario()
    ensures CountCoins([Circle(100, 100, 50)], Some(3.0)) == CalibrationRejected
  {
  }

  /** Without any circle the outcome is "no coins", whatever the prompt would
      have answered. */
  lemma NoCirclesScenario(prompt: Option<real>)
    ensures CountCoins([], prompt) == NoCoins
  {
  }
}
