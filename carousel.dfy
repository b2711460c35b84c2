/** The testimonial carousel: one of five reviews is shown; arrows step
    through them cyclically, a six-second interval steps forward, and a
    dot jumps to its review. */
module Carousel {

  datatype Review = Review(name: string, location: string, rating: nat, treatment: string)

  /** The reviews shown, in order (their quoted texts are not part of the
      model). */
  const Reviews: seq<Review> := [
    Review("Jennifer M.", "Denver, CO", 5, "Individual Therapy - Anxiety Treatment"),
    Review("Carlos and Maria R.", "Boulder, CO", 5, "Couples Therapy"),
    Review("David L.", "Fort Collins, CO", 5, "Addiction Recovery Program"),
    Review("Amanda K.", "Aurora, CO", 5, "Adolescent Therapy"),
    Review("Robert T.", "Lakewood, CO", 5, "Group Therapy")
  ]

  /** `testimonials.length`. */
  const Count := 5

  /** `currentTestimonial` on first render. */
  const InitialIndex := 0

  /** JavaScript's `%`, which truncates toward zero: the remainder takes
      the sign of the dividend. */
  function JsRem(a: int, b: int): (r: int)
    requires b > 0
    ensures a >= 0 ==> 0 <= r < b
    ensures a < 0 ==> -b < r <= 0
  {
    if a >= 0 then a % b else -((-a) % b)
  }

  /** Without the added length, stepping back from the first review would
      give -1, not a valid index. */
  lemma PrevNeedsOffset()
    ensures JsRem(0 - 1, Count) == -1 && JsRem(0 - 1 + Count, Count) == Count - 1
  {
  }

  predicate InRange(i: int) {
    0 <= i < Count
  }

  /** `nextTestimonial`'s updater, also run by the interval. */
  function Next(prev: int): int {
    JsRem(prev + 1, Count)
  }

  /** `prevTestimonial`'s updater. */
  function Prev(prev: int): int {
    JsRem(prev - 1 + Count, Count)
  }

  /** Dot `k`'s click handler. */
  function Select(k: int): int {
    k
  }

  /** The index the carousel starts from and every step keeps in range,
      so the review shown is always defined. */
  lemma StepsStayInRange(i: int, k: int)
    requires InRange(i)
    ensures InRange(InitialIndex) && |Reviews| == Count
    ensures InRange(Next(i)) && InRange(Prev(i))
    ensures InRange(k) ==> InRange(Select(k))
  {
  }

  /** The arrows step by one, wrapping at the ends. */
  lemma Steps(i: int)
    requires InRange(i)
    ensures Next(i) == if i == Count - 1 then 0 else i + 1
    ensures Prev(i) == if i == 0 then Count - 1 else i - 1
  {
  }

  /** One arrow undoes the other. */
  lemma NextPrevInverse(i: int)
    requires InRange(i)
    ensures Prev(Next(i)) == i && Next(Prev(i)) == i
  {
    Steps(i);
    Steps(Next(i));
    Steps(Prev(i));
  }

  /** `n` forward steps from `i`. */
  function NextN(i: int, n: nat): int {
    if n == 0 then i else Next(NextN(i, n - 1))
  }

  lemma {:induction false} NextNIsRotation(i: int, n: nat)
    requires InRange(i)
    ensures NextN(i, n) == (i + n) % Count
  {
    if n > 0 {
      NextNIsRotation(i, n - 1);
      RemSucc(i + n - 1);
    }
  }

  /** One more step on the remainder is one more on the count. */
  lemma RemSucc(x: nat)
    ensures JsRem(x % Count + 1, Count) == (x + 1) % Count
  {
    var q, r := x / Count, x % Count;
    assert x == Count * q + r;
    if r + 1 < Count {
      assert x + 1 == Count * q + (r + 1);
    } else {
      assert x + 1 == Count * (q + 1);
    }
  }

  /** Five forward steps, by arrow or by interval, come back to the same
      review. */
  lemma FullCycle(i: int)
    requires InRange(i)
    ensures NextN(i, Count) == i
  {
    NextNIsRotation(i, Count);
  }

  /** The dot clicked is the review shown, and its dot is the one
      highlighted. */
  lemma SelectShows(k: int)
    requires InRange(k)
    ensures Select(k) == k && Reviews[Select(k)] == Reviews[k]
  {
  }

  /** Every review shows five stars. */
  lemma AllFiveStars(i: int)
    requires InRange(i)
    ensures Reviews[i].rating == 5
  {
  }
}
