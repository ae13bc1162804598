/** Order facts about multiplying and dividing reals. */
module Reals {

  lemma MulNonNegative(p: real, q: real)
    requires p >= 0.0 && q >= 0.0
    ensures p * q >= 0.0
  {
  }

  lemma MulPositive(p: real, q: real)
    requires p > 0.0 && q > 0.0
    ensures p * q > 0.0
  {
  }

  lemma MulLess(p: real, q: real, w: real)
    requires p < q && w > 0.0
    ensures p * w < q * w
  {
    assert (q - p) * w > 0.0;
  }

  lemma DivUndo(x: real, w: real)
    requires w > 0.0
    ensures x / w * w == x
  {
  }

  lemma DivAtLeast(x: real, w: real, q: real)
    requires w > 0.0
    ensures x / w >= q <==> x >= q * w
    ensures x / w == q <==> x == q * w
  {
    DivUndo(x, w);
    if x / w < q { MulLess(x / w, q, w); }
    if q < x / w { MulLess(q, x / w, w); }
  }

  lemma DivLess(x: real, y: real, w: real)
    requires w > 0.0
    ensures x / w < y / w <==> x < y
  {
    DivUndo(y, w);
    DivAtLeast(x, w, y / w);
  }
}
