/**
 * The public testimonial feed: `getInitials` and the per-review derivations
 * of `loadTestimonials` (star strip, avatar choice) and the choice between
 * cards and the two placeholders.
 */
module Testimonials {
  import opened Wrappers
  import opened Text
  import opened Criteria
  import opened Scoring

  // ---------------------------------------------------------------------
  // getInitials
  // ---------------------------------------------------------------------

  /**
   * The upper-cased first letter of every non-empty piece, in order (the
   * letters the loop of `getInitials` would collect without its cap).
   */
  function FirstLetters(names: seq<string>): (letters: string)
    ensures |letters| <= |names|
  {
    if names == [] then ""
    else
      var last := names[|names| - 1];
      FirstLetters(names[..|names| - 1]) + (if last != "" then [Upper(last[0])] else "")
  }

  /** The non-empty pieces, in order. */
  function NonEmpty(names: seq<string>): (kept: seq<string>)
    ensures |kept| <= |names|
  {
    if names == [] then []
    else
      var last := names[|names| - 1];
      NonEmpty(names[..|names| - 1]) + (if last != "" then [last] else [])
  }

  /** The initials `getInitials` promises: at most the first two letters. */
  function Initials(fullName: string): (r: string)
    ensures |r| <= 2
    ensures forall k :: 0 <= k < |r| ==> !('a' <= r[k] <= 'z')
  {
    var letters := FirstLetters(Split(fullName, ' '));
    FirstLettersUpper(Split(fullName, ' '));
    if |letters| <= 2 then letters else letters[..2]
  }

  /** No collected letter is a lower-case ASCII letter. */
  lemma {:induction false} FirstLettersUpper(names: seq<string>)
    ensures forall k :: 0 <= k < |FirstLetters(names)| ==> !('a' <= FirstLetters(names)[k] <= 'z')
  {
    if names != [] {
      FirstLettersUpper(names[..|names| - 1]);
    }
  }

  /**
   * `FirstLetters` is exactly "the first letter of each non-empty piece":
   * its k-th letter is the upper-cased first character of the k-th
   * non-empty piece.
   */
  lemma {:induction false} FirstLettersOfNonEmpty(names: seq<string>)
    ensures |FirstLetters(names)| == |NonEmpty(names)|
    ensures forall k :: 0 <= k < |NonEmpty(names)| ==>
      NonEmpty(names)[k] != "" && FirstLetters(names)[k] == Upper(NonEmpty(names)[k][0])
  {
    if names != [] {
      FirstLettersOfNonEmpty(names[..|names| - 1]);
    }
  }

  /** Letters collected from a prefix of the pieces start the full list. */
  lemma {:induction false} FirstLettersPrefix(names: seq<string>, n: nat)
    requires n <= |names|
    ensures FirstLetters(names[..n]) <= FirstLetters(names)
    decreases |names| - n
  {
    if n < |names| {
      FirstLettersPrefix(names, n + 1);
      assert names[..n + 1][..n] == names[..n];
    } else {
      assert names[..n] == names;
    }
  }

  /** A word without the separator splits into itself. */
  lemma {:induction false} SplitWord(w: string, sep: char)
    requires sep !in w
    ensures Split(w, sep) == [w]
    decreases |w|
  {
    if w != [] {
      SplitWord(w[1..], sep);
      assert [w[0]] + w[1..] == w;
    }
  }

  /** A word followed by the separator splits off as the first piece. */
  lemma {:induction false} SplitLeadingWord(w: string, sep: char, rest: string)
    requires sep !in w
    ensures Split(w + [sep] + rest, sep) == [w] + Split(rest, sep)
    decreases |w|
  {
    var s := w + [sep] + rest;
    if w == [] {
      assert s[1..] == rest;
    } else {
      assert s[1..] == w[1..] + [sep] + rest;
      SplitLeadingWord(w[1..], sep, rest);
      assert [w[0]] + w[1..] == w;
    }
  }

  /** Two-word name: one initial from each word. */
  lemma TwoWordInitials(first: string, last: string)
    requires first != "" && last != ""
    requires ' ' !in first && ' ' !in last
    ensures Initials(first + " " + last) == [Upper(first[0]), Upper(last[0])]
  {
    SplitLeadingWord(first, ' ', last);
    SplitWord(last, ' ');
    assert first + " " + last == first + [' '] + last;
    var names := [first, last];
    assert Split(first + " " + last, ' ') == names;
    assert names[..1] == [first];
    assert [first][..0] == [];
    assert FirstLetters([first]) == [Upper(first[0])];
    assert FirstLetters(names) == [Upper(first[0]), Upper(last[0])];
  }

  /** "Ayu Lestari" has the initials "AL". */
  lemma AyuLestari()
    ensures Initials("Ayu Lestari") == "AL"
  {
    TwoWordInitials("Ayu", "Lestari");
    assert "Ayu" + " " + "Lestari" == "Ayu Lestari";
  }

  /** An empty name has no initials. */
  lemma EmptyNameInitials()
    ensures Initials("") == ""
  {
    assert Split("", ' ') == [""];
    assert [""][..0] == [];
  }

  /** `getInitials`: the loop over the pieces, stopping at two letters. */
  method GetInitials(fullName: string) returns (initials: string)
    ensures initials == Initials(fullName)
  {
    if fullName == "" {
      EmptyNameInitials();
      return "";
    }
    var names := Split(fullName, ' ');
    initials := "";
    for i := 0 to |names|
      invariant initials == FirstLetters(names[..i])
      invariant |initials| < 2
    {
      if |names| > 0 && names[i] != "" {
        initials := initials + [Upper(names[i][0])];
      }
      assert names[..i + 1][..i] == names[..i];
      if |initials| >= 2 {
        FirstLettersPrefix(names, i + 1);
        break;
      }
    }
    assert names[..|names|] == names;
  }

  // ---------------------------------------------------------------------
  // Stars
  // ---------------------------------------------------------------------

  /**
   * `Math.round(totalScore / 20)`: the nearest whole number of stars, a
   * half rounding up.
   */
  function StarCount(totalScore: int): (n: int)
    ensures 20 * n - 10 <= totalScore < 20 * n + 10
    ensures 0 <= totalScore <= 100 ==> 0 <= n <= 5
  {
    (totalScore + 10) / 20
  }

  /** 80 points show four stars; 90 rounds up to five; 89 stays at four. */
  lemma StarCountExamples()
    ensures StarCount(80) == 4 && StarCount(90) == 5 && StarCount(89) == 4
  {
  }

  /**
   * A review that passed validation (every rating 1..5) shows between one
   * and five stars.
   */
  lemma SubmittedReviewStars(r: Ratings)
    requires AllInRange(r, 1, 5)
    ensures 1 <= StarCount(Score(r)) <= 5
  {
  }

  /** Rating every criterion k stars shows exactly k stars on the card. */
  lemma UniformRatingStars(r: Ratings, k: int)
    requires 0 <= k <= 5
    requires AllInRange(r, k, k)
    ensures StarCount(Score(r)) == k
  {
    UniformScore(r, k);
  }

  const FilledStar: char := '\U{2605}'
  const EmptyStar: char := '\U{2606}'

  function Repeat(c: char, n: nat): (s: string)
    ensures |s| == n
    ensures forall i :: 0 <= i < n ==> s[i] == c
  {
    if n == 0 then "" else Repeat(c, n - 1) + [c]
  }

  /** The filled part of the strip: the star count, kept within 0..5. */
  function FilledCount(starCount: int): (n: nat)
    ensures n <= 5
  {
    if starCount < 0 then 0 else if starCount > 5 then 5 else starCount
  }

  /** The five-star strip: filled stars first, then empty ones. */
  function StripOf(starCount: int): (s: string)
    ensures |s| == 5
  {
    Repeat(FilledStar, FilledCount(starCount)) + Repeat(EmptyStar, 5 - FilledCount(starCount))
  }

  /** Position i of the strip is filled exactly when i is below the count. */
  lemma StripOfAt(starCount: int, i: int)
    requires 0 <= i < 5
    ensures StripOf(starCount)[i] == (if i < starCount then FilledStar else EmptyStar)
  {
    var f := FilledCount(starCount);
    if i < f {
      assert StripOf(starCount)[i] == Repeat(FilledStar, f)[i];
    } else {
      assert StripOf(starCount)[i] == Repeat(EmptyStar, 5 - f)[i - f];
    }
  }

  /** The loop building `starsHTML`. */
  method StarStrip(starCount: int) returns (strip: string)
    ensures strip == StripOf(starCount)
  {
    strip := "";
    for i := 0 to 5
      invariant |strip| == i
      invariant forall k :: 0 <= k < i ==> strip[k] == (if k < starCount then FilledStar else EmptyStar)
    {
      strip := strip + [if i < starCount then FilledStar else EmptyStar];
    }
    forall k | 0 <= k < 5
      ensures strip[k] == StripOf(starCount)[k]
    {
      StripOfAt(starCount, k);
    }
  }

  // ---------------------------------------------------------------------
  // Cards
  // ---------------------------------------------------------------------

  /** One record of the public feed, as far as the card reads it. */
  datatype PublicReview = PublicReview(
    comment: string,
    reviewerName: string,
    avatarUrl: Option<string>,
    totalScore: int)

  /** The avatar part of a card. */
  datatype Avatar = Photo(url: string) | InitialsBadge(text: string)

  /** A rendered testimonial card. */
  datatype Card = Card(comment: string, reviewerName: string, avatar: Avatar, stars: string)

  /**
   * The avatar choice: the photo when its URL is present and starts with
   * "http", the initials otherwise.
   */
  function ChooseAvatar(avatarUrl: Option<string>, reviewerName: string): (a: Avatar)
    ensures a.Photo? <==> avatarUrl.Some? && "http" <= avatarUrl.value
    ensures a.Photo? ==> a.url == avatarUrl.value
    ensures a.InitialsBadge? ==> a.text == Initials(reviewerName) && |a.text| <= 2
  {
    if avatarUrl.Some? && "http" <= avatarUrl.value then Photo(avatarUrl.value)
    else InitialsBadge(Initials(reviewerName))
  }

  /** The card of one review. */
  function CardOf(review: PublicReview): (c: Card)
    ensures |c.stars| == 5
    ensures c.comment == review.comment && c.reviewerName == review.reviewerName
  {
    Card(review.comment, review.reviewerName,
         ChooseAvatar(review.avatarUrl, review.reviewerName),
         StripOf(StarCount(review.totalScore)))
  }

  /** Cards for a list of reviews, in feed order. */
  function CardsOf(reviews: seq<PublicReview>): (cards: seq<Card>)
    ensures |cards| == |reviews|
  {
    if reviews == [] then []
    else CardsOf(reviews[..|reviews| - 1]) + [CardOf(reviews[|reviews| - 1])]
  }

  /** The k-th card is the card of the k-th review. */
  lemma {:induction false} CardsOfAt(reviews: seq<PublicReview>, k: int)
    requires 0 <= k < |reviews|
    ensures CardsOf(reviews)[k] == CardOf(reviews[k])
  {
    if k < |reviews| - 1 {
      CardsOfAt(reviews[..|reviews| - 1], k);
    }
  }

  /** The body of the `forEach` for one review. */
  method RenderCard(review: PublicReview) returns (card: Card)
    ensures card == CardOf(review)
  {
    var stars := StarStrip(StarCount(review.totalScore));
    var avatar: Avatar;
    if review.avatarUrl.Some? && "http" <= review.avatarUrl.value {
      avatar := Photo(review.avatarUrl.value);
    } else {
      var initials := GetInitials(review.reviewerName);
      avatar := InitialsBadge(initials);
    }
    card := Card(review.comment, review.reviewerName, avatar, stars);
  }

  /** What the feed request yields. */
  datatype FeedResponse =
    | FeedBody(success: bool, data: seq<PublicReview>)  // 2xx with a parsed body
    | FeedHttpError                                      // non-2xx
    | FeedNetworkError                                   // `fetch` or JSON parsing failed

  /** What the testimonial container ends up showing. */
  datatype FeedView = Cards(cards: seq<Card>) | NoTestimonials | LoadFailed

  /** `loadTestimonials` once the container exists. */
  method LoadTestimonials(response: FeedResponse) returns (view: FeedView)
    ensures view.Cards? <==> response.FeedBody? && response.success && |response.data| > 0
    ensures view.Cards? ==> view.cards == CardsOf(response.data)
    ensures view.LoadFailed? <==> !response.FeedBody?
  {
    if !response.FeedBody? {
      return LoadFailed;
    }
    if response.success && |response.data| > 0 {
      var cards: seq<Card> := [];
      for i := 0 to |response.data|
        invariant cards == CardsOf(response.data[..i])
      {
        var card := RenderCard(response.data[i]);
        assert response.data[..i + 1][..i] == response.data[..i];
        cards := cards + [card];
      }
      assert response.data[..|response.data|] == response.data;
      view := Cards(cards);
    } else {
      view := NoTestimonials;
    }
  }
}
