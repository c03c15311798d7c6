/**
  The three clips the card offers. The selected clip is held as the path
  string of its file; the sound selector is a controlled `<select>` whose
  options carry those paths as values and show a label.
 */
module Sounds {

  datatype Option<T> = None | Some(value: T)

  /** One constructor per option of the sound selector, named after its file. */
  datatype Sound = Confetti | CandleLight | BalloonPop

  /** The clip selected when the card is mounted. */
  const INITIAL_SOUND: Sound := Confetti

  /** The option's value: the path of the clip's file. */
  function Path(s: Sound): (r: string)
    ensures |r| > 12 && r[..8] == "/sounds/" && r[|r| - 4..] == ".mp3"
  {
    match s
    case Confetti => "/sounds/confetti.mp3"
    case CandleLight => "/sounds/candle-light.mp3"
    case BalloonPop => "/sounds/balloon-pop.mp3"
  }

  /** The option a controlled selector shows for a value: the one whose
      value equals it, if any. */
  function FromPath(p: string): (r: Option<Sound>)
    ensures r.Some? ==> Path(r.value) == p
    ensures r.None? ==> forall s: Sound :: Path(s) != p
  {
    if p == Path(Confetti) then Some(Confetti)
    else if p == Path(CandleLight) then Some(CandleLight)
    else if p == Path(BalloonPop) then Some(BalloonPop)
    else None
  }

  /** Reading back the value of an option yields that option, so distinct
      options have distinct values and a change of option is a change of
      the selected path. */
  lemma FromPathRoundTrip(s: Sound)
    ensures FromPath(Path(s)) == Some(s)
  {
  }

  lemma PathInjective(s1: Sound, s2: Sound)
    ensures Path(s1) == Path(s2) <==> s1 == s2
  {
  }
}
