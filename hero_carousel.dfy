/** The home page carousel (components/home/hero-carousel.tsx): the first
    four events as slides, the current slide index that a five-second timer
    advances and the dots set, and the title split into two or three lines.
    Dates are formatted by the browser's locale code and are not modelled. */
module HeroCarousel {
  import opened Wrappers
  import opened Text
  import opened ProviderTypes

  const MaxSlides := 4
  const DefaultImage := "https://images.unsplash.com/photo-1501281668745-f7f57925c3b4?w=850&h=420&fit=crop"

  /** A slide: what the carousel shows of one event. */
  datatype CarouselEvent = CarouselEvent(id: string, artist: string, image: string, name: string, slideNumber: string)

  /** The category as the event carries it. */
  function CategoryText(c: AppCategory): string {
    match c
    case Concert => "concert"
    case Theatre => "theatre"
    case Exposition => "exposition"
    case Autre => "autre"
  }

  /** `s.charAt(0).toUpperCase() + s.slice(1)`. */
  function Capitalize(s: string): (r: string)
    ensures |r| == |s|
    ensures s != [] ==> r[0] == UpperChar(s[0]) && r[1..] == s[1..]
  {
    if s == [] then [] else Upper([s[0]]) + s[1..]
  }

  /** `(index + 1).toString().padStart(2, '0')`. */
  function SlideNumber(index: nat): string {
    PadStart(Decimal(index + 1), 2, '0')
  }

  /** One slide built from an event and its position. */
  function ToSlide(event: MappedEvent, index: nat): CarouselEvent {
    CarouselEvent(
      event.id,
      Capitalize(CategoryText(event.category)),
      if event.image.Some? && event.image.value != "" then event.image.value else DefaultImage,
      event.title,
      SlideNumber(index))
  }

  /** `events.slice(0, 4).map(...)`. */
  function CarouselEvents(events: seq<MappedEvent>): (r: seq<CarouselEvent>)
    ensures |r| == if |events| < MaxSlides then |events| else MaxSlides
    ensures forall i :: 0 <= i < |r| ==> r[i] == ToSlide(events[i], i)
  {
    var n := if |events| < MaxSlides then |events| else MaxSlides;
    seq(n, i requires 0 <= i < n => ToSlide(events[i], i))
  }

  /** `title.split(' ')`, then one line for up to two words, the first word
      and the rest for three, and first, middle and last for more, each
      upper-cased. */
  function TitleLines(title: string): seq<string> {
    var words := Split(title, ' ');
    if |words| <= 2 then [Upper(title)]
    else if |words| == 3 then [Upper(words[0]), Upper(Join(words[1..], " "))]
    else [Upper(words[0]), Upper(Join(words[1..|words| - 1], " ")), Upper(words[|words| - 1])]
  }

  /** The next index of the five-second timer. */
  function Step(current: int, n: int): int
    requires n > 0
  {
    (current + 1) % n
  }

  /** The index after `k` ticks of the timer. */
  function AdvanceBy(current: int, k: nat, n: int): int
    requires n > 0
  {
    if k == 0 then current else Step(AdvanceBy(current, k - 1, n), n)
  }

  /** The carousel's state: its slides and `currentSlide`. */
  class Carousel {
    const slides: seq<CarouselEvent>
    var current: int

    /** The index names a slide; with no slides the component renders
        nothing and the index keeps its initial 0. */
    ghost predicate Valid()
      reads this
    {
      if |slides| == 0 then current == 0 else 0 <= current < |slides|
    }

    /** Mounting with the events passed in: `useState(0)`. */
    constructor (events: seq<MappedEvent>)
      ensures slides == CarouselEvents(events) && current == 0 && Valid()
    {
      slides := CarouselEvents(events);
      current := 0;
    }

    /** One tick of the interval, which the effect starts only when there
        are slides. */
    method Advance()
      requires Valid() && |slides| > 0
      modifies this
      ensures current == Step(old(current), |slides|)
      ensures Valid()
    {
      current := (current + 1) % |slides|;
    }

    /** `goToSlide(index)`: `index % n`. The dots pass their own index,
        which is never negative. */
    method GoToSlide(index: nat)
      requires Valid() && |slides| > 0
      modifies this
      ensures current == index % |slides|
      ensures index < |slides| ==> current == index
      ensures Valid()
    {
      current := index % |slides|;
    }

    /** `carouselEvents[currentSlide]`. */
    function CurrentEvent(): (e: CarouselEvent)
      requires Valid() && |slides| > 0
      reads this
      ensures e in slides
    {
      slides[current]
    }

    /** `goToEvent(currentSlide)`: the address the page navigates to. */
    function CurrentHref(): (href: string)
      requires Valid() && |slides| > 0
      reads this
      ensures StartsWith(href, "/events/")
      ensures href[|"/events/"|..] == CurrentEvent().id
    {
      "/events/" + slides[current].id
    }
  }

  // ---------------------------------------------------------------------
  // Arithmetic of the slide index

  /** There are at most four slides, so the remainders are by 1 to 4. */
  lemma SmallModStep(x: int, n: int)
    requires 0 < n <= MaxSlides
    ensures ((x % n) + 1) % n == (x + 1) % n
  {
    if n == 1 {
    } else if n == 2 {
    } else if n == 3 {
    } else {
    }
  }

  lemma SmallModOfIndex(x: int, n: int)
    requires 0 < n <= MaxSlides && 0 <= x < n
    ensures x % n == x && (x + n) % n == x
  {
    if n == 1 {
    } else if n == 2 {
    } else if n == 3 {
    } else {
    }
  }

  // ---------------------------------------------------------------------
  // Properties

  /** At most four slides, in the order of the events, each carrying its
      event's id and title. */
  lemma SlidesFollowEvents(events: seq<MappedEvent>, i: int)
    requires 0 <= i < |CarouselEvents(events)|
    ensures i < |events| && i < MaxSlides
    ensures CarouselEvents(events)[i].id == events[i].id && CarouselEvents(events)[i].name == events[i].title
    ensures CarouselEvents(events)[i].slideNumber == SlideNumber(i)
  {
  }

  /** No events, no slides: the component renders nothing. */
  lemma NoEventsNoSlides(events: seq<MappedEvent>)
    ensures CarouselEvents(events) == [] <==> events == []
  {
    if events != [] {
      assert |CarouselEvents(events)| >= 1;
    }
  }

  /** An event without an image, or with an empty one, shows the default
      picture. */
  lemma ImageFallback(event: MappedEvent, index: nat)
    ensures ToSlide(event, index).image == (if event.image == Some("") || event.image.None? then DefaultImage else event.image.value)
  {
  }

  /** The slide number reads `i + 1` with two characters and a leading zero
      below ten. */
  lemma SlideNumberValue(index: nat)
    requires index < 99
    ensures |SlideNumber(index)| == 2
    ensures DigitsValue(SlideNumber(index)) == index + 1
    ensures index < 9 ==> SlideNumber(index)[0] == '0'
  {
    var d := Digits(index + 1);
    DigitsRoundTrip(index + 1);
    if index + 1 < 10 {
      assert d == [DigitChar(index + 1)];
      var r := SlideNumber(index);
      assert r == ['0', DigitChar(index + 1)];
      assert r[..1] == ['0'];
      assert ['0'][..0] == [];
    } else {
      assert d == Digits((index + 1) / 10) + [DigitChar((index + 1) % 10)];
      assert |d| == 2;
    }
  }

  /** The four slides are numbered 01 to 04. */
  lemma SlideNumbers()
    ensures SlideNumber(0) == "01" && SlideNumber(1) == "02" && SlideNumber(2) == "03" && SlideNumber(3) == "04"
  {
    assert Digits(1) == "1" && Digits(2) == "2" && Digits(3) == "3" && Digits(4) == "4";
    assert seq(1, _ => '0') == "0";
  }

  /** The first character of the category is upper-cased and the rest is
      kept. */
  lemma ArtistIsCapitalizedCategory(event: MappedEvent, index: nat)
    ensures ToSlide(event, index).artist[0] == UpperChar(CategoryText(event.category)[0])
    ensures ToSlide(event, index).artist[1..] == CategoryText(event.category)[1..]
  {
    assert CategoryText(event.category) != [];
  }

  /** "concert" is shown "Concert". */
  lemma ConcertIsCapitalized()
    ensures Capitalize(CategoryText(Concert)) == "Concert"
  {
    var r := Capitalize("concert");
    assert r[0] == 'C';
    assert r[1..] == "oncert";
    assert r == [r[0]] + r[1..];
  }

  /** The number of lines follows the number of words. */
  lemma TitleLineCount(title: string)
    ensures |Split(title, ' ')| <= 2 ==> |TitleLines(title)| == 1
    ensures |Split(title, ' ')| == 3 ==> |TitleLines(title)| == 2
    ensures |Split(title, ' ')| >= 4 ==> |TitleLines(title)| == 3
  {
  }

  /** The lines joined with spaces give back the upper-cased title. */
  lemma TitleLinesJoin(title: string)
    ensures Join(TitleLines(title), " ") == Upper(title)
  {
    var words := Split(title, ' ');
    JoinSplit(title, ' ');
    if |words| == 3 {
      var tail := Join(words[1..], " ");
      assert Join(words, " ") == words[0] + " " + tail;
      TwoLinesJoin(words[0], tail);
    } else if |words| >= 4 {
      var middle := Join(words[1..|words| - 1], " ");
      JoinFirstMiddleLast(words, " ");
      ThreeLinesJoin(words[0], middle, words[|words| - 1]);
    }
  }

  lemma TwoLinesJoin(first: string, rest: string)
    ensures Join([Upper(first), Upper(rest)], " ") == Upper(first + " " + rest)
  {
    UpperAround(first, rest);
    JoinTwo(Upper(first), Upper(rest), " ");
  }

  lemma ThreeLinesJoin(first: string, middle: string, last: string)
    ensures Join([Upper(first), Upper(middle), Upper(last)], " ") == Upper(first + " " + middle + " " + last)
  {
    UpperAround(first, middle + " " + last);
    UpperAround(middle, last);
    assert first + " " + middle + " " + last == first + " " + (middle + " " + last);
    JoinThree(Upper(first), Upper(middle), Upper(last), " ");
  }

  lemma UpperAround(a: string, b: string)
    ensures Upper(a + " " + b) == Upper(a) + " " + Upper(b)
  {
    assert Upper(" ") == " ";
    UpperAppend(a, " ");
    UpperAppend(a + " ", b);
  }

  lemma JoinTwo(a: string, b: string, sep: string)
    ensures Join([a, b], sep) == a + sep + b
  {
    assert [a, b][1..] == [b];
  }

  lemma JoinThree(a: string, b: string, c: string, sep: string)
    ensures Join([a, b, c], sep) == a + sep + (b + sep + c)
  {
    assert [a, b, c][1..] == [b, c];
    JoinTwo(b, c, sep);
  }

  /** Two words stay on one line. */
  lemma TwoWordsOneLine(a: string, b: string)
    requires ' ' !in a && ' ' !in b
    ensures TitleLines(a + " " + b) == [Upper(a + " " + b)]
  {
    SplitAfterPiece(a, ' ', b);
    SplitWithoutSep(b, ' ');
    assert a + " " + b == a + [' '] + b;
  }

  /** The timer and the dots keep the index on a slide. */
  lemma StepInRange(current: int, n: int)
    requires n > 0
    ensures 0 <= Step(current, n) < n
  {
  }

  /** `k` ticks move the index `k` slides on, cyclically. */
  lemma {:induction false} AdvanceByIsShift(current: int, k: nat, n: int)
    requires 0 < n <= MaxSlides && 0 <= current < n
    ensures AdvanceBy(current, k, n) == (current + k) % n
  {
    if k == 0 {
      SmallModOfIndex(current, n);
    } else {
      AdvanceByIsShift(current, k - 1, n);
      SmallModStep(current + k - 1, n);
    }
  }

  /** After as many ticks as there are slides the carousel is back where it
      started, and every slide is reached from the first. */
  lemma CycleVisitsEverySlide(n: int, target: int)
    requires 0 < n <= MaxSlides && 0 <= target < n
    ensures AdvanceBy(0, target, n) == target
    ensures AdvanceBy(target, n, n) == target
  {
    AdvanceByIsShift(0, target, n);
    AdvanceByIsShift(target, n, n);
    SmallModOfIndex(target, n);
  }
}
