/** The fast cycle: one tick of the action, affect and motivation charts. */
module FastCycle {
  import opened Wrappers
  import opened Faces
  import opened Action
  import opened Motivation

  /** A (valence, arousal) reading of the affect model. */
  datatype Affective = Affective(valence: real, arousal: real)
  /** A (wakefulness, pressure) reading of the sleep model. */
  datatype Sleep = Sleep(wakefulness: real, pressure: real)
  /** The affect message: emotion, mood and sleep together. */
  datatype Affect = Affect(emotion: Affective, mood: Affective, sleep: Sleep)

  /** What the fast cycle reads from the robot's core; every field may be absent. */
  datatype CoreSnapshot = CoreSnapshot(
    priority: Option<seq<real>>,
    inhibition: Option<seq<real>>,
    affect: Option<Affect>,
    motivation: Option<seq<real>>)

  /** One plotted series. */
  datatype Trace =
    | Bar(name: string, x: seq<real>, categories: seq<string>)
    | Scatter(name: string, x: seq<real>, y: seq<real>)

  /** The layout a figure is drawn with; the affect and sleep layouts carry the
      background face chosen this tick (`None`: not set by this tick). */
  datatype Layout = ActionLayout | AffectLayout(face: Option<string>) | SleepLayout(face: Option<string>) | MotivationLayout

  /** A figure: its traces, or only a layout (`data` absent) when there is nothing to draw. */
  datatype Figure = Figure(data: Option<seq<Trace>>, layout: Layout)

  /** The seven figures of one fast tick, in the callback's output order. */
  datatype FastOutputs = FastOutputs(
    actionGraph: Figure, actionGraphLarge: Figure,
    affectGraph: Figure, affectGraphLarge: Figure, sleepGraphLarge: Figure,
    motivationGraph: Figure, motivationGraphLarge: Figure)

  /** The exceptions a fast tick can raise. */
  datatype FastError =
    | MoodFaceUnassigned      // no mood cell matched: `affect_face` read before assignment
    | SleepFaceUnassigned     // no wakefulness band matched: `sleep_face` read before assignment
    | MotivationTooShort      // the drive vector has fewer than two entries

  /** The fixed x axis of the motivation plot, 0 .. MOTIVATION_LENGTH - 1. */
  function MotivationAxis(): (axis: seq<real>)
    ensures |axis| == MOTIVATION_LENGTH
    ensures forall k :: 0 <= k < |axis| ==> axis[k] == k as real
  {
    seq(MOTIVATION_LENGTH, k => k as real)
  }

  /** The two bars of the action chart. */
  function ActionFigure(series: ActionSeries): (f: Figure) {
    Figure(Some([Bar("Input", series.priority, ACTION_LIST),
                 Bar("Output", series.inhibition, ACTION_LIST)]), ActionLayout)
  }

  /** The motivation chart drawn from the store's two series. */
  function MotivationFigure(social: seq<real>, ball: seq<real>): (f: Figure) {
    Figure(Some([Scatter("Social", MotivationAxis(), social),
                 Scatter("Ball", MotivationAxis(), ball)]), MotivationLayout)
  }

  function EmotionTrace(a: Affect): (t: Trace) { Scatter("Emotion", [a.emotion.valence], [a.emotion.arousal]) }
  function MoodTrace(a: Affect): (t: Trace) { Scatter("Mood", [a.mood.valence], [a.mood.arousal]) }
  function SleepTrace(a: Affect): (t: Trace) { Scatter("Wakefulness", [a.sleep.wakefulness], [a.sleep.pressure]) }

  /** Whether a tick raises: a mood or wakefulness no band holds, or a drive
      vector too short for its two reads. */
  function FastFailure(core: CoreSnapshot): (e: Option<FastError>) {
    if core.affect.Some? && MoodFace(core.affect.value.mood.valence, core.affect.value.mood.arousal).None? then
      Some(MoodFaceUnassigned)
    else if core.affect.Some? && SleepFace(core.affect.value.sleep.wakefulness).None? then
      Some(SleepFaceUnassigned)
    else if core.motivation.Some? && |core.motivation.value| < 2 then
      Some(MotivationTooShort)
    else None
  }

  /** One fast tick. On an exception the framework keeps the previous outputs
      and the previous store, so `memory` is left as it was. Otherwise the
      action chart is drawn from the action vectors, the affect charts from the
      affect message with the faces of the lookups, and the motivation store
      takes one sample, (social, ball) = the first two drive levels. */
  method CallbackFast(core: CoreSnapshot, memory: MotivationMemory) returns (r: Result<FastOutputs, FastError>)
    modifies memory
    ensures r.Err? <==> FastFailure(core).Some?
    ensures r.Err? ==> r.error == FastFailure(core).value
    ensures r.Err? || core.motivation.None? ==> memory.social == old(memory.social) && memory.ball == old(memory.ball)
    ensures r.Ok? && core.motivation.Some? ==>
      var d := core.motivation.value;
      var trim := TrimAfter(|old(memory.social)| + 1);
      memory.social == Pushed(old(memory.social), d[0], trim) &&
      memory.ball == Pushed(old(memory.ball), d[1], trim)
    ensures old(memory.Valid()) ==> memory.Valid()
    ensures r.Ok? ==>
      var out := r.value;
      out.actionGraph == ActionFigure(SeriesOf(core.priority, core.inhibition)) &&
      out.actionGraphLarge == out.actionGraph
    ensures r.Ok? && core.affect.None? ==>
      var out := r.value;
      out.affectGraph == Figure(None, AffectLayout(None)) &&
      out.affectGraphLarge == Figure(None, AffectLayout(None)) &&
      out.sleepGraphLarge == Figure(None, AffectLayout(None))
    ensures r.Ok? && core.affect.Some? ==>
      var out := r.value;
      var a := core.affect.value;
      var moodFace := MoodFace(a.mood.valence, a.mood.arousal);
      out.affectGraph == Figure(Some([EmotionTrace(a), MoodTrace(a), SleepTrace(a)]), AffectLayout(moodFace)) &&
      out.affectGraphLarge == Figure(Some([EmotionTrace(a), MoodTrace(a)]), AffectLayout(moodFace)) &&
      out.sleepGraphLarge == Figure(Some([SleepTrace(a)]), SleepLayout(SleepFace(a.sleep.wakefulness))) &&
      moodFace.Some? && SleepFace(a.sleep.wakefulness).Some?
    ensures r.Ok? && core.motivation.None? ==>
      r.value.motivationGraph == Figure(None, MotivationLayout) &&
      r.value.motivationGraphLarge == Figure(None, MotivationLayout)
    ensures r.Ok? && core.motivation.Some? ==>
      r.value.motivationGraph == MotivationFigure(memory.social, memory.ball) &&
      r.value.motivationGraphLarge == r.value.motivationGraph
    ensures r.Ok? && core.motivation.Some? && old(memory.Valid()) ==>
      |memory.social| < |MotivationAxis()| && |memory.ball| < |MotivationAxis()|
  {
    var action := ActionFigure(SeriesOf(core.priority, core.inhibition));

    var affectGraph, affectGraphLarge, sleepGraphLarge;
    if core.affect.Some? {
      var a := core.affect.value;
      var moodFace := LookupMoodFace(a.mood.valence, a.mood.arousal);
      if moodFace.None? {
        return Err(MoodFaceUnassigned);
      }
      var sleepFace := LookupSleepFace(a.sleep.wakefulness);
      if sleepFace.None? {
        return Err(SleepFaceUnassigned);
      }
      affectGraph := Figure(Some([EmotionTrace(a), MoodTrace(a), SleepTrace(a)]), AffectLayout(moodFace));
      affectGraphLarge := Figure(Some([EmotionTrace(a), MoodTrace(a)]), AffectLayout(moodFace));
      sleepGraphLarge := Figure(Some([SleepTrace(a)]), SleepLayout(sleepFace));
    } else {
      affectGraph := Figure(None, AffectLayout(None));
      affectGraphLarge := affectGraph;
      sleepGraphLarge := affectGraph;
    }

    var motivationGraph;
    if core.motivation.Some? {
      var d := core.motivation.value;
      if |d| < 2 {
        return Err(MotivationTooShort);
      }
      memory.Update(Some((d[0], d[1])));
      motivationGraph := MotivationFigure(memory.social, memory.ball);
    } else {
      motivationGraph := Figure(None, MotivationLayout);
    }

    r := Ok(FastOutputs(action, action, affectGraph, affectGraphLarge, sleepGraphLarge,
                        motivationGraph, motivationGraph));
  }
}
