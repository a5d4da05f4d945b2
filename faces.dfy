/** The face tables of the affect panels and the lookups that pick a face for the
    current mood (valence, arousal) and wakefulness. */
module Faces {
  import opened Wrappers
  import opened Bands
  import opened Assets

  /** Mood grid: valence bands start at 0, 0.2, ..., 0.8; arousal bands at 0, 0.3, 0.6, 0.9. */
  const VALENCE_WIDTH := 0.2
  const VALENCE_BANDS := 5
  const AROUSAL_WIDTH := 0.3
  const AROUSAL_BANDS := 4
  /** Wakefulness bands start at 0, 0.25, 0.5, 0.75. */
  const WAKE_WIDTH := 0.25
  const WAKE_BANDS := 4

  /** `AFFECT_FACES[i][j]` is the face for valence band `i` and arousal band `j`. */
  const AFFECT_FACES: seq<seq<string>> := [
    [ASSET_PATH + "face_frowning.png", ASSET_PATH + "face_crying.png",
     ASSET_PATH + "face_crying_loud.png", ASSET_PATH + "face_crying_loud.png"],
    [ASSET_PATH + "face_pensive.png", ASSET_PATH + "face_frowning_slight.png",
     ASSET_PATH + "face_anguished.png", ASSET_PATH + "face_anguished.png"],
    [ASSET_PATH + "face_expressionless.png", ASSET_PATH + "face_neutral.png",
     ASSET_PATH + "face_open_mouth.png", ASSET_PATH + "face_open_mouth.png"],
    [ASSET_PATH + "face_relieved.png", ASSET_PATH + "face_smiling_slight.png",
     ASSET_PATH + "face_grinning.png", ASSET_PATH + "face_grinning.png"],
    [ASSET_PATH + "face_smiling.png", ASSET_PATH + "face_smiling_eyes.png",
     ASSET_PATH + "face_grinning_eyes.png", ASSET_PATH + "face_grinning_eyes.png"]
  ]

  /** `SLEEP_FACES[k]` is the face for wakefulness band `k`. */
  const SLEEP_FACES: seq<string> := [
    ASSET_PATH + "face_sleeping.png", ASSET_PATH + "face_sleepy.png",
    ASSET_PATH + "face_no_mouth.png", ASSET_PATH + "face_no_mouth.png"
  ]

  /** The grid cell test of the mood lookup. */
  predicate InMoodCell(i: nat, j: nat, valence: real, arousal: real) {
    InBand(i, VALENCE_WIDTH, valence) && InBand(j, AROUSAL_WIDTH, arousal)
  }

  /** Reference definition of the mood face: the table entry of the one cell
      holding (valence, arousal), or nothing when no cell holds it. */
  function MoodFace(valence: real, arousal: real): (face: Option<string>)
    ensures face.Some? <==> 0.0 < valence <= 1.0 && 0.0 < arousal <= 1.2
  {
    match (BandOf(valence, VALENCE_WIDTH, VALENCE_BANDS), BandOf(arousal, AROUSAL_WIDTH, AROUSAL_BANDS))
    case (Some(i), Some(j)) => Some(AFFECT_FACES[i][j])
    case _ => None
  }

  /** Reference definition of the sleep face. */
  function SleepFace(wakefulness: real): (face: Option<string>)
    ensures face.Some? <==> 0.0 < wakefulness <= 1.0
  {
    match BandOf(wakefulness, WAKE_WIDTH, WAKE_BANDS)
    case Some(k) => Some(SLEEP_FACES[k])
    case None => None
  }

  /** What the nested scan has assigned once it has visited every cell before
      (x, y) in row-major order. */
  ghost function MoodFaceScanned(valence: real, arousal: real, x: nat, y: nat): (face: Option<string>) {
    match (BandOf(valence, VALENCE_WIDTH, VALENCE_BANDS), BandOf(arousal, AROUSAL_WIDTH, AROUSAL_BANDS))
    case (Some(i), Some(j)) =>
      if i < x || (i == x && j < y) then Some(AFFECT_FACES[i][j]) else None
    case _ => None
  }

  /** The mood lookup as the dashboard runs it: visit every cell of the grid and
      assign the face of each cell whose test holds. `None` means the face was
      never assigned (reading it afterwards raises). */
  method LookupMoodFace(valence: real, arousal: real) returns (face: Option<string>)
    ensures face == MoodFace(valence, arousal)
  {
    face := None;
    var x := 0;
    while x < VALENCE_BANDS
      invariant 0 <= x <= VALENCE_BANDS
      invariant face == MoodFaceScanned(valence, arousal, x, 0)
    {
      var y := 0;
      while y < AROUSAL_BANDS
        invariant 0 <= y <= AROUSAL_BANDS
        invariant face == MoodFaceScanned(valence, arousal, x, y)
      {
        if InMoodCell(x, y, valence, arousal) {
          BandOfExact(valence, VALENCE_WIDTH, VALENCE_BANDS, x);
          BandOfExact(arousal, AROUSAL_WIDTH, AROUSAL_BANDS, y);
          face := Some(AFFECT_FACES[x][y]);
        }
        y := y + 1;
      }
      x := x + 1;
    }
  }

  /** What the scan has assigned once it has visited every band before `x`. */
  ghost function SleepFaceScanned(wakefulness: real, x: nat): (face: Option<string>) {
    match BandOf(wakefulness, WAKE_WIDTH, WAKE_BANDS)
    case Some(k) => if k < x then Some(SLEEP_FACES[k]) else None
    case None => None
  }

  /** The wakefulness lookup as the dashboard runs it: visit every band and
      assign the face of each band whose test holds. */
  method LookupSleepFace(wakefulness: real) returns (face: Option<string>)
    ensures face == SleepFace(wakefulness)
  {
    face := None;
    var x := 0;
    while x < WAKE_BANDS
      invariant 0 <= x <= WAKE_BANDS
      invariant face == SleepFaceScanned(wakefulness, x)
    {
      if InBand(x, WAKE_WIDTH, wakefulness) {
        BandOfExact(wakefulness, WAKE_WIDTH, WAKE_BANDS, x);
        face := Some(SLEEP_FACES[x]);
      }
      x := x + 1;
    }
  }

  /** On the valid domain exactly one grid cell holds the mood, and the face
      chosen is that cell's table entry. */
  lemma MoodCellExactlyOne(valence: real, arousal: real) returns (i: nat, j: nat)
    requires 0.0 < valence <= 1.0 && 0.0 < arousal <= 1.2
    ensures i < VALENCE_BANDS && j < AROUSAL_BANDS && InMoodCell(i, j, valence, arousal)
    ensures forall i', j' :: InMoodCell(i', j', valence, arousal) ==> i' == i && j' == j
    ensures MoodFace(valence, arousal) == Some(AFFECT_FACES[i][j])
  {
    i := BandOf(valence, VALENCE_WIDTH, VALENCE_BANDS).value;
    j := BandOf(arousal, AROUSAL_WIDTH, AROUSAL_BANDS).value;
    forall i', j' | InMoodCell(i', j', valence, arousal) ensures i' == i && j' == j {
      BandUnique(i', i, VALENCE_WIDTH, valence);
      BandUnique(j', j, AROUSAL_WIDTH, arousal);
    }
  }

  /** Whatever cell holds the mood, the lookup returns that cell's face. */
  lemma MoodFaceOfCell(valence: real, arousal: real, i: nat, j: nat)
    requires i < VALENCE_BANDS && j < AROUSAL_BANDS && InMoodCell(i, j, valence, arousal)
    ensures MoodFace(valence, arousal) == Some(AFFECT_FACES[i][j])
  {
    BandOfExact(valence, VALENCE_WIDTH, VALENCE_BANDS, i);
    BandOfExact(arousal, AROUSAL_WIDTH, AROUSAL_BANDS, j);
  }

  /** The arousal bands starting at 0.6 and 0.9 show the same face: any arousal
      above 0.6 (up to 1.2) leaves the face to valence alone. */
  lemma HighArousalSameFace(valence: real, a1: real, a2: real)
    requires 0.6 < a1 <= 1.2 && 0.6 < a2 <= 1.2
    ensures MoodFace(valence, a1) == MoodFace(valence, a2)
  {
    assert Lower(2, AROUSAL_WIDTH) == 0.6 && Lower(3, AROUSAL_WIDTH) == 0.9;
    var j1 := if a1 <= 0.9 then 2 else 3;
    var j2 := if a2 <= 0.9 then 2 else 3;
    BandOfExact(a1, AROUSAL_WIDTH, AROUSAL_BANDS, j1);
    BandOfExact(a2, AROUSAL_WIDTH, AROUSAL_BANDS, j2);
  }

  /** On the valid domain exactly one wakefulness band holds the input. */
  lemma SleepBandExactlyOne(wakefulness: real) returns (k: nat)
    requires 0.0 < wakefulness <= 1.0
    ensures k < WAKE_BANDS && InBand(k, WAKE_WIDTH, wakefulness)
    ensures forall k' :: InBand(k', WAKE_WIDTH, wakefulness) ==> k' == k
    ensures SleepFace(wakefulness) == Some(SLEEP_FACES[k])
  {
    k := BandOf(wakefulness, WAKE_WIDTH, WAKE_BANDS).value;
    forall k' | InBand(k', WAKE_WIDTH, wakefulness) ensures k' == k {
      BandUnique(k', k, WAKE_WIDTH, wakefulness);
    }
  }

  /** The bands starting at 0.50 and 0.75 both show the face without a mouth. */
  lemma AwakeFaceHasNoMouth(wakefulness: real)
    requires 0.5 < wakefulness <= 1.0
    ensures SleepFace(wakefulness) == Some(ASSET_PATH + "face_no_mouth.png")
  {
    assert Lower(2, WAKE_WIDTH) == 0.5 && Lower(3, WAKE_WIDTH) == 0.75;
    BandOfExact(wakefulness, WAKE_WIDTH, WAKE_BANDS, if wakefulness <= 0.75 then 2 else 3);
  }
}
