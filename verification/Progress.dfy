/** Scaling the progress of a folder's tar stream to the size of its content. */
module Progress {
  const TWO_TO_THE_64 := 0x1_0000_0000_0000_0000

  type int64 = x: int | -0x8000_0000_0000_0000 <= x <= 0x7fff_ffff_ffff_ffff

  /** The full 128-bit product of two 64-bit words, as a high and a low word. */
  function Mul64(x: int, y: int): (p: (int, int))
    requires 0 <= x < TWO_TO_THE_64 && 0 <= y < TWO_TO_THE_64
    ensures 0 <= p.0 < TWO_TO_THE_64 && 0 <= p.1 < TWO_TO_THE_64
    ensures p.0 * TWO_TO_THE_64 + p.1 == x * y
  {
    ProductBelow(x, y, TWO_TO_THE_64);
    (x * y / TWO_TO_THE_64, x * y % TWO_TO_THE_64)
  }

  /** The quotient of a 128-bit dividend by a 64-bit divisor. It is defined only when the quotient fits in one word. */
  function Div64(hi: int, lo: int, y: int): (q: int)
    requires 0 <= hi < y < TWO_TO_THE_64 && 0 <= lo < TWO_TO_THE_64
    ensures 0 <= q < TWO_TO_THE_64
    ensures q == (hi * TWO_TO_THE_64 + lo) / y
  {
    QuotientBelow(hi * TWO_TO_THE_64 + lo, y, TWO_TO_THE_64);
    (hi * TWO_TO_THE_64 + lo) / y
  }

  lemma ProductBelow(x: int, y: int, n: int)
    requires 0 <= x < n && 0 <= y < n
    ensures 0 <= x * y && x * y / n < n
  {
    ProductLess(x, y, n);
    QuotientBelow(x * y, n, n);
  }

  lemma ProductLess(x: int, y: int, n: int)
    requires 0 <= x < n && 0 <= y < n
    ensures 0 <= x * y < n * n
  {
    assert x * y <= x * n < n * n;
  }

  lemma QuotientBelow(a: int, y: int, n: int)
    requires 0 <= a < y * n && 0 < y
    ensures 0 <= a / y < n
  {
    assert a / y * y <= a < n * y;
    MulCancel(a / y, n, y);
  }

  /** sent bytes of a stream of tarSize bytes as the same fraction of content bytes. */
  function ScaleProgress(sent: int64, tarSize: int64, content: int64): (r: int64)
    ensures 0 <= r && (r > 0 ==> r <= content)
    ensures sent <= 0 || tarSize <= 0 || content <= 0 ==> r == 0
    ensures 0 < sent < tarSize && 0 < content ==> r == sent * content / tarSize
    ensures 0 < tarSize <= sent && 0 < content ==> r == content
  {
    if sent <= 0 || tarSize <= 0 || content <= 0 then 0
    else if sent >= tarSize then content
    else
      var (hi, lo) := Mul64(sent, content);
      HighWordBelowDivisor(sent, tarSize, content, hi, lo);
      ScaledBelow(sent, tarSize, content);
      Div64(hi, lo, tarSize)
  }

  /** The division never panics: a stream that is not complete leaves a high word below the divisor. */
  lemma HighWordBelowDivisor(sent: int, tarSize: int, content: int, hi: int, lo: int)
    requires 0 < sent < tarSize && 0 < content < TWO_TO_THE_64 && 0 <= lo
    requires hi * TWO_TO_THE_64 + lo == sent * content
    ensures hi < tarSize
  {
    HighWordBelow(sent, tarSize, content, hi, TWO_TO_THE_64);
  }

  lemma HighWordBelow(sent: int, tarSize: int, content: int, hi: int, n: int)
    requires 0 < sent < tarSize && 0 < content < n
    requires hi * n <= sent * content
    ensures hi < tarSize
  {
    MulLess(sent, tarSize, content);
    MulLess(content, n, tarSize);
    MulCancel(hi, tarSize, n);
  }

  lemma MulCancel(a: int, b: int, c: int)
    requires a * c < b * c && 0 < c
    ensures a < b
  {
  }

  lemma MulLess(a: int, b: int, c: int)
    requires a < b && 0 < c
    ensures a * c < b * c && c * a < c * b
  {
  }

  lemma ScaledBelow(sent: int, tarSize: int, content: int)
    requires 0 < sent < tarSize && 0 < content
    ensures 0 <= sent * content / tarSize <= content
  {
    assert 0 <= sent * content < tarSize * content;
    QuotientBelow(sent * content, tarSize, content);
  }

  lemma ScaleProgressMonotone(a: int64, b: int64, tarSize: int64, content: int64)
    requires a <= b
    ensures ScaleProgress(a, tarSize, content) <= ScaleProgress(b, tarSize, content)
  {
    if 0 < a && b < tarSize && 0 < content {
      assert a * content <= b * content;
      DivMonotone(a * content, b * content, tarSize);
    }
  }

  lemma DivMonotone(a: int, b: int, y: int)
    requires a <= b && 0 < y
    ensures a / y <= b / y
  {
    assert a / y * y <= a <= b < (b / y + 1) * y;
    MulCancel(a / y, b / y + 1, y);
  }
}
