/** The vocabulary shared by the recorder, the mapper and the executor:
    the nine motion classes of a two-track vehicle and a timed path segment. */
module Motion {

  /** One steering behaviour: the pair of actions on tracks A and B. */
  datatype RobotMotion =
    | MAJU
    | MUNDUR
    | MAJU_BELOK_KIRI
    | MAJU_BELOK_KANAN
    | MUNDUR_BELOK_KIRI
    | MUNDUR_BELOK_KANAN
    | PUTAR_KIRI
    | PUTAR_KANAN
    | DIAM

  /** A recorded path segment: a motion held for `durationMs` milliseconds.
      The duration is a signed 64-bit difference of two clock readings, so
      it is an `int` here; nothing forces it to be positive. */
  datatype RthMotionCommand = RthMotionCommand(motion: RobotMotion, durationMs: int)

  /** Forward intent: straight forward and the two forward veers. */
  predicate IsForward(m: RobotMotion)
  {
    m == MAJU || m == MAJU_BELOK_KANAN || m == MAJU_BELOK_KIRI
  }

  /** Reverse intent: straight reverse and the two reverse veers. */
  predicate IsBackward(m: RobotMotion)
  {
    m == MUNDUR || m == MUNDUR_BELOK_KIRI || m == MUNDUR_BELOK_KANAN
  }

  /** An in-place pivot: one track forward, the other reverse. */
  predicate IsPivot(m: RobotMotion)
  {
    m == PUTAR_KIRI || m == PUTAR_KANAN
  }

  /** The (track A, track B) actions the executor drives for each motion;
      DIAM is a stop on both tracks. */
  function Tracks(m: RobotMotion): (string, string)
  {
    match m
    case MAJU => ("maju", "maju")
    case MUNDUR => ("mundur", "mundur")
    case MAJU_BELOK_KANAN => ("maju", "stop")
    case MAJU_BELOK_KIRI => ("stop", "maju")
    case MUNDUR_BELOK_KIRI => ("mundur", "stop")
    case MUNDUR_BELOK_KANAN => ("stop", "mundur")
    case PUTAR_KANAN => ("maju", "mundur")
    case PUTAR_KIRI => ("mundur", "maju")
    case DIAM => ("stop", "stop")
  }

  /** The three intents partition the eight moving classes; DIAM has none. */
  lemma IntentsPartition(m: RobotMotion)
    ensures !(IsForward(m) && IsBackward(m))
    ensures !(IsForward(m) && IsPivot(m)) && !(IsBackward(m) && IsPivot(m))
    ensures m == DIAM <==> !IsForward(m) && !IsBackward(m) && !IsPivot(m)
  {
  }
}
