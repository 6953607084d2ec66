/**
 * The per-symbol score (app.py lines 78-94): base 50, adjusted when the last
 * bar is near a support level (tested first) or a resistance level, with the
 * RSI of the last bar as a tie-breaker, then mapped to a colour band.
 */
module Scoring {
  import opened Series
  import opened Optional
  import opened Proximity

  /** The traffic-light emoji shown beside the reason. */
  datatype Colour = Red | Yellow | Green

  /** The score, the reason shown ("motivo") and its colour. */
  datatype Signal = Signal(score: int, reason: string, colour: Colour)

  const Base: int := 50

  /** `rsi_val < t`; a NaN RSI fails every comparison. */
  predicate Below(rsi: Option<real>, t: real) {
    rsi.Some? && rsi.value < t
  }

  /** `rsi_val > t`; a NaN RSI fails every comparison. */
  predicate Above(rsi: Option<real>, t: real) {
    rsi.Some? && rsi.value > t
  }

  /** Line 94: red below 40, green above 60, yellow otherwise. */
  function Band(score: int): Colour {
    if score < 40 then Red else if score > 60 then Green else Yellow
  }

  /** The decision table of lines 78-94, for the last bar and its RSI. */
  function Assess(last: Bar, rsi: Option<real>, fundos: seq<real>, topos: seq<real>): (s: Signal)
    ensures s.score in {20, 40, 50, 60, 80}
    ensures s.colour == Band(s.score)
  {
    var (score, reason) :=
      if NearAny(last.low, fundos) then
        if Below(rsi, 30.0) then (Base + 30, "Suporte + RSI Baixo (Oportunidade)")
        else (Base + 10, "Suporte")
      else if NearAny(last.high, topos) then
        if Above(rsi, 70.0) then (Base - 30, "Resistência + RSI Alto (Perigo)")
        else (Base - 10, "Resistência")
      else (Base, "Neutro");
    Signal(score, reason, Band(score))
  }

  /** Near support, the score is 60 or 80 and the resistance levels play no part. */
  lemma SupportTakesPrecedence(last: Bar, rsi: Option<real>, fundos: seq<real>, topos: seq<real>)
    requires NearAny(last.low, fundos)
    ensures Assess(last, rsi, fundos, topos).score in {60, 80}
    ensures Assess(last, rsi, fundos, topos) == Assess(last, rsi, fundos, [])
  {
  }

  /** The neutral outcome: 50 and "Neutro" exactly when the last bar is near neither zone. */
  lemma NeutralIffNoZone(last: Bar, rsi: Option<real>, fundos: seq<real>, topos: seq<real>)
    ensures var s := Assess(last, rsi, fundos, topos);
      (s.score == 50 <==> !NearAny(last.low, fundos) && !NearAny(last.high, topos)) &&
      (s.reason == "Neutro" <==> s.score == 50)
  {
  }

  /** The whole decision table: each of the four zone rows as an iff, with its reason text. */
  lemma ScoreTable(last: Bar, rsi: Option<real>, fundos: seq<real>, topos: seq<real>)
    ensures var s := Assess(last, rsi, fundos, topos);
      var support, resistance := NearAny(last.low, fundos), NearAny(last.high, topos);
      && (s.score == 80 <==> support && Below(rsi, 30.0))
      && (s.score == 60 <==> support && !Below(rsi, 30.0))
      && (s.score == 20 <==> !support && resistance && Above(rsi, 70.0))
      && (s.score == 40 <==> !support && resistance && !Above(rsi, 70.0))
      && (s.score == 80 <==> s.reason == "Suporte + RSI Baixo (Oportunidade)")
      && (s.score == 60 <==> s.reason == "Suporte")
      && (s.score == 20 <==> s.reason == "Resistência + RSI Alto (Perigo)")
      && (s.score == 40 <==> s.reason == "Resistência")
  {
  }

  /** An undefined RSI never confirms: near support gives 60, otherwise near resistance 40. */
  lemma UndefinedRsiScores(last: Bar, fundos: seq<real>, topos: seq<real>)
    ensures var s := Assess(last, None, fundos, topos);
      (NearAny(last.low, fundos) ==> s == Signal(60, "Suporte", Yellow)) &&
      (!NearAny(last.low, fundos) && NearAny(last.high, topos) ==> s == Signal(40, "Resistência", Yellow))
  {
  }

  /** Colours of the five possible scores: red only for 20, green only for 80. */
  lemma ColourOfScore(last: Bar, rsi: Option<real>, fundos: seq<real>, topos: seq<real>)
    ensures var s := Assess(last, rsi, fundos, topos);
      (s.colour == Red <==> s.score == 20) &&
      (s.colour == Green <==> s.score == 80) &&
      (s.colour == Yellow <==> s.score in {40, 50, 60})
  {
  }

}
