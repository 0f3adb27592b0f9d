/** The steering mirror used to turn a recorded path into a return path. */
module RthMapper {
  import opened Motion

  /** Swaps left and right; straight motions and DIAM are fixed. */
  function Invert(m: RobotMotion): (r: RobotMotion)
    ensures IsForward(r) == IsForward(m)
    ensures IsBackward(r) == IsBackward(m)
    ensures IsPivot(r) == IsPivot(m)
    ensures r == DIAM <==> m == DIAM
  {
    match m
    case MAJU => MAJU
    case MAJU_BELOK_KANAN => MAJU_BELOK_KIRI
    case MAJU_BELOK_KIRI => MAJU_BELOK_KANAN
    case MUNDUR_BELOK_KANAN => MUNDUR_BELOK_KIRI
    case MUNDUR_BELOK_KIRI => MUNDUR_BELOK_KANAN
    case PUTAR_KANAN => PUTAR_KIRI
    case PUTAR_KIRI => PUTAR_KANAN
    case MUNDUR => MUNDUR
    case DIAM => DIAM
  }

  /** Inverting twice gives back the original motion. */
  lemma InvertInvolutive(m: RobotMotion)
    ensures Invert(Invert(m)) == m
  {
  }

  /** The fixed points are exactly the straight motions and DIAM. */
  lemma InvertFixedPoints(m: RobotMotion)
    ensures Invert(m) == m <==> m in {MAJU, MUNDUR, DIAM}
  {
  }

  /** Left and right are exchanged for veers and pivots. */
  lemma InvertSwapsSides()
    ensures Invert(MAJU_BELOK_KANAN) == MAJU_BELOK_KIRI && Invert(MAJU_BELOK_KIRI) == MAJU_BELOK_KANAN
    ensures Invert(MUNDUR_BELOK_KANAN) == MUNDUR_BELOK_KIRI && Invert(MUNDUR_BELOK_KIRI) == MUNDUR_BELOK_KANAN
    ensures Invert(PUTAR_KANAN) == PUTAR_KIRI && Invert(PUTAR_KIRI) == PUTAR_KANAN
  {
  }

  /** Invert is a bijection: injective, and every motion has a preimage. */
  lemma InvertBijective(m1: RobotMotion, m2: RobotMotion)
    ensures Invert(m1) == Invert(m2) ==> m1 == m2
    ensures exists p :: Invert(p) == m1
  {
    InvertInvolutive(m1);
    InvertInvolutive(m2);
  }
}
