/**
 * `validateForm`: checks the review draft and collects every violation,
 * without short-circuiting, in the fixed order name, comment, B1..B5.
 */
module Validation {
  import opened Criteria
  import opened Text

  /** The fields `validateForm` reads from the review data. */
  datatype ReviewForm = ReviewForm(reviewerName: string, comment: string, ratings: Ratings)

  /** `{ isValid, errors }` as the script returns it. */
  datatype ValidationResult = ValidationResult(isValid: bool, errors: seq<string>)

  /** The three kinds of violation the form can have. */
  datatype FormError = NameTooShort | CommentTooShort | RatingMissing(criterion: Criterion)

  const MinNameLength: nat := 2
  const MinCommentLength: nat := 10

  /** The user-facing text of a violation; a rating error quotes the criterion's display name. */
  function Message(e: FormError): string
  {
    match e
    case NameTooShort => "Nama reviewer harus diisi minimal 2 karakter"
    case CommentTooShort => "Komentar harus diisi minimal 10 karakter"
    case RatingMissing(c) => "Rating untuk " + DisplayName(c) + " harus diisi"
  }

  /** A rating error quotes the display name of its criterion. */
  lemma MessageNamesCriterion(c: Criterion)
    ensures var m := Message(RatingMissing(c));
      13 + |DisplayName(c)| <= |m| && m[13..13 + |DisplayName(c)|] == DisplayName(c)
  {
    var m := Message(RatingMissing(c));
    assert m == "Rating untuk " + DisplayName(c) + " harus diisi";
    assert m[13..13 + |DisplayName(c)|] == DisplayName(c);
  }

  /** Distinct violations have distinct messages. */
  lemma MessageInjective(a: FormError, b: FormError)
    ensures Message(a) == Message(b) ==> a == b
  {
    if Message(a) == Message(b) {
      var m := Message(a);
      assert m[0] == Message(b)[0];
      if a.RatingMissing? && b.RatingMissing? {
        MessageNamesCriterion(a.criterion);
        MessageNamesCriterion(b.criterion);
        assert |DisplayName(a.criterion)| == |m| - 25 == |DisplayName(b.criterion)|;
        DisplayNameInjective(a.criterion, b.criterion);
      }
    }
  }

  /** The messages of a list of violations, one per violation, in the same order. */
  function Messages(es: seq<FormError>): (ms: seq<string>)
    ensures |ms| == |es|
  {
    if es == [] then [] else Messages(es[..|es| - 1]) + [Message(es[|es| - 1])]
  }

  /** The k-th message is the message of the k-th violation. */
  lemma {:induction false} MessagesAt(es: seq<FormError>, k: nat)
    requires k < |es|
    ensures Messages(es)[k] == Message(es[k])
  {
    if k < |es| - 1 {
      MessagesAt(es[..|es| - 1], k);
    }
  }

  /** The trimmed name is at least two UTF-16 code units long. */
  predicate NameOk(name: string) { Utf16Length(Trim(name)) >= MinNameLength }

  /** The trimmed comment is at least ten UTF-16 code units long. */
  predicate CommentOk(comment: string) { Utf16Length(Trim(comment)) >= MinCommentLength }

  /** A criterion is rated when its rating is present and at least one star. */
  predicate RatingOk(r: Ratings, c: Criterion) { RatingOf(r, c) >= 1 }

  /** The draft the script is willing to send. */
  predicate FormOk(f: ReviewForm)
  {
    NameOk(f.reviewerName) && CommentOk(f.comment) && forall c: Criterion :: RatingOk(f.ratings, c)
  }

  /** The unrated criteria among the first `n` in declaration order, in that order. */
  function RatingViolations(r: Ratings, n: nat): seq<FormError>
    requires n <= |AllCriteria|
  {
    if n == 0 then []
    else
      RatingViolations(r, n - 1)
        + (if RatingOk(r, AllCriteria[n - 1]) then [] else [RatingMissing(AllCriteria[n - 1])])
  }

  /** The violations of the two text fields, name first. */
  function FieldViolations(f: ReviewForm): seq<FormError>
  {
    (if NameOk(f.reviewerName) then [] else [NameTooShort])
      + (if CommentOk(f.comment) then [] else [CommentTooShort])
  }

  /** The violations of a draft, in checking order. */
  function Violations(f: ReviewForm): seq<FormError>
  {
    FieldViolations(f) + RatingViolations(f.ratings, |AllCriteria|)
  }

  /** The position of a violation in the checking order. */
  function Rank(e: FormError): nat
  {
    match e
    case NameTooShort => 0
    case CommentTooShort => 1
    case RatingMissing(c) => 2 + Index(c)
  }

  /**
   * `validateForm`: pushes one message per violated rule, in checking
   * order, and reports the form valid exactly when no message was pushed.
   */
  method ValidateForm(form: ReviewForm) returns (result: ValidationResult)
    ensures result.errors == Messages(Violations(form))
    ensures result.isValid <==> result.errors == []
    ensures result.isValid <==> FormOk(form)
  {
    var errors: seq<string> := [];
    if form.reviewerName == "" || Utf16Length(Trim(form.reviewerName)) < MinNameLength {
      errors := errors + [Message(NameTooShort)];
    }
    if form.comment == "" || Utf16Length(Trim(form.comment)) < MinCommentLength {
      errors := errors + [Message(CommentTooShort)];
    }
    assert errors == Messages(FieldViolations(form));
    errors := PushRatingErrors(form.ratings, errors);
    MessagesAppend(FieldViolations(form), RatingViolations(form.ratings, |AllCriteria|));
    result := ValidationResult(|errors| == 0, errors);
    NoViolationsIffFormOk(form);
  }

  /**
   * The `forEach` over the criteria inside `validateForm`: appends, in
   * declaration order, one message for each criterion that is absent or
   * rated below one star.
   */
  method PushRatingErrors(ratings: Ratings, errors: seq<string>) returns (out: seq<string>)
    ensures out == errors + Messages(RatingViolations(ratings, |AllCriteria|))
  {
    out := errors;
    ghost var found: seq<FormError> := [];
    for i := 0 to |AllCriteria|
      invariant found == RatingViolations(ratings, i)
      invariant out == errors + Messages(found)
    {
      var key := AllCriteria[i];
      if key !in ratings || ratings[key] == 0 || ratings[key] < 1 {
        MessagesSnoc(found, RatingMissing(key));
        assert out + [Message(RatingMissing(key))] == errors + (Messages(found) + [Message(RatingMissing(key))]);
        out, found := out + [Message(RatingMissing(key))], found + [RatingMissing(key)];
      }
    }
  }

  /** The messages of two lists of violations, one after the other. */
  lemma {:induction false} MessagesAppend(a: seq<FormError>, b: seq<FormError>)
    ensures Messages(a + b) == Messages(a) + Messages(b)
    decreases |b|
  {
    if b == [] {
      assert a + b == a;
    } else {
      var init := b[..|b| - 1];
      assert (a + b)[..|a + b| - 1] == a + init;
      MessagesAppend(a, init);
      assert Messages(b) == Messages(init) + [Message(b[|b| - 1])];
      assert Messages(a + b) == Messages(a) + Messages(init) + [Message(b[|b| - 1])];
    }
  }

  /** Appending a violation appends its message. */
  lemma MessagesSnoc(es: seq<FormError>, e: FormError)
    ensures Messages(es + [e]) == Messages(es) + [Message(e)]
  {
    assert (es + [e])[..|es|] == es;
  }

  /** Every rating violation among the first `n` criteria is for an unrated one of them. */
  lemma {:induction false} RatingViolationsSound(r: Ratings, n: nat)
    requires n <= |AllCriteria|
    ensures |RatingViolations(r, n)| <= n
    ensures forall k :: 0 <= k < |RatingViolations(r, n)| ==>
      RatingViolations(r, n)[k].RatingMissing?
      && Index(RatingViolations(r, n)[k].criterion) < n
      && !RatingOk(r, RatingViolations(r, n)[k].criterion)
    ensures forall i, j :: 0 <= i < j < |RatingViolations(r, n)| ==>
      RatingViolations(r, n)[i] != RatingViolations(r, n)[j]
  {
    if n > 0 {
      RatingViolationsSound(r, n - 1);
      var prev := RatingViolations(r, n - 1);
      var last := AllCriteria[n - 1];
      assert Index(last) == n - 1;
      assert RatingMissing(last) !in prev by {
        forall k | 0 <= k < |prev| ensures prev[k] != RatingMissing(last) {
          assert Index(prev[k].criterion) < n - 1;
        }
      }
    }
  }

  /** Every unrated criterion among the first `n` is reported. */
  lemma {:induction false} RatingViolationsComplete(r: Ratings, n: nat)
    requires n <= |AllCriteria|
    ensures forall c :: Index(c) < n && !RatingOk(r, c) ==> RatingMissing(c) in RatingViolations(r, n)
  {
    if n > 0 {
      RatingViolationsComplete(r, n - 1);
      forall c | Index(c) < n ensures c == AllCriteria[n - 1] || Index(c) < n - 1 {
        assert AllCriteria[Index(c)] == c;
      }
    }
  }

  /** When every criterion is rated there is no rating violation. */
  lemma {:induction false} RatingViolationsNone(r: Ratings, n: nat)
    requires n <= |AllCriteria|
    requires forall c: Criterion :: RatingOk(r, c)
    ensures RatingViolations(r, n) == []
  {
    if n > 0 {
      RatingViolationsNone(r, n - 1);
    }
  }

  /** Rating violations come in declaration order of their criteria. */
  lemma {:induction false} RatingViolationsSorted(r: Ratings, n: nat)
    requires n <= |AllCriteria|
    ensures InCheckingOrder(RatingViolations(r, n))
  {
    if n > 0 {
      RatingViolationsSorted(r, n - 1);
      RatingViolationsSound(r, n - 1);
      var last := AllCriteria[n - 1];
      assert Index(last) == n - 1;
      var tail := if RatingOk(r, last) then [] else [RatingMissing(last)];
      InCheckingOrderConcat(RatingViolations(r, n - 1), tail, n + 1);
    }
  }

  /** The name and comment rules are reported exactly when violated. */
  lemma FieldViolationsExact(f: ReviewForm)
    ensures NameTooShort in Violations(f) <==> !NameOk(f.reviewerName)
    ensures CommentTooShort in Violations(f) <==> !CommentOk(f.comment)
  {
    var rv := RatingViolations(f.ratings, |AllCriteria|);
    RatingViolationsSound(f.ratings, |AllCriteria|);
    assert NameTooShort !in rv && CommentTooShort !in rv;
  }

  /** A criterion is reported exactly when it is absent or rated below one star. */
  lemma RatingViolationsExact(f: ReviewForm)
    ensures forall c: Criterion :: RatingMissing(c) in Violations(f) <==> !RatingOk(f.ratings, c)
  {
    var rv := RatingViolations(f.ratings, |AllCriteria|);
    RatingViolationsSound(f.ratings, |AllCriteria|);
    RatingViolationsComplete(f.ratings, |AllCriteria|);
    forall c: Criterion ensures RatingMissing(c) in Violations(f) <==> !RatingOk(f.ratings, c) {
      if RatingMissing(c) in rv {
        var k :| 0 <= k < |rv| && rv[k] == RatingMissing(c);
      }
    }
  }

  /** At most seven errors: one per rule. */
  lemma ViolationsAtMostSeven(f: ReviewForm)
    ensures |Violations(f)| <= 7
  {
    RatingViolationsSound(f.ratings, |AllCriteria|);
  }

  /** There are no violations exactly when the draft is acceptable. */
  lemma NoViolationsIffFormOk(f: ReviewForm)
    ensures Violations(f) == [] <==> FormOk(f)
  {
    var rv := RatingViolations(f.ratings, |AllCriteria|);
    RatingViolationsComplete(f.ratings, |AllCriteria|);
    if FormOk(f) {
      RatingViolationsNone(f.ratings, |AllCriteria|);
    }
  }

  /** The violations are strictly increasing in checking order. */
  predicate InCheckingOrder(es: seq<FormError>)
  {
    forall i, j :: 0 <= i < j < |es| ==> Rank(es[i]) < Rank(es[j])
  }

  /** Two ordered runs, the first entirely before the second, make one ordered run. */
  lemma InCheckingOrderConcat(a: seq<FormError>, b: seq<FormError>, bound: nat)
    requires InCheckingOrder(a) && InCheckingOrder(b)
    requires forall k :: 0 <= k < |a| ==> Rank(a[k]) < bound
    requires forall k :: 0 <= k < |b| ==> Rank(b[k]) >= bound
    ensures InCheckingOrder(a + b)
  {
    var v := a + b;
    forall i, j | 0 <= i < j < |v| ensures Rank(v[i]) < Rank(v[j]) {
      if i >= |a| {
        assert v[i] == b[i - |a|] && v[j] == b[j - |a|];
      } else if j >= |a| {
        assert v[i] == a[i] && v[j] == b[j - |a|];
      } else {
        assert v[i] == a[i] && v[j] == a[j];
      }
    }
  }

  /** The name error, if any, precedes the comment error, and both precede every rating error. */
  lemma FieldViolationsOrdered(f: ReviewForm)
    ensures InCheckingOrder(FieldViolations(f))
    ensures forall k :: 0 <= k < |FieldViolations(f)| ==> Rank(FieldViolations(f)[k]) < 2
  {
    var fv := FieldViolations(f);
    if NameOk(f.reviewerName) {
      assert fv == [] || fv == [CommentTooShort];
    } else if CommentOk(f.comment) {
      assert fv == [NameTooShort];
    } else {
      assert fv == [NameTooShort, CommentTooShort];
    }
  }

  /** Errors come out strictly in the order name, comment, B1, B2, B3, B4, B5. */
  lemma ViolationsOrdered(f: ReviewForm)
    ensures InCheckingOrder(Violations(f))
  {
    FieldViolationsOrdered(f);
    var rv := RatingViolations(f.ratings, |AllCriteria|);
    RatingViolationsSound(f.ratings, |AllCriteria|);
    RatingViolationsSorted(f.ratings, |AllCriteria|);
    InCheckingOrderConcat(FieldViolations(f), rv, 2);
  }

  /** An empty draft violates all seven rules, reported in checking order. */
  lemma EmptyDraftViolations()
    ensures Violations(ReviewForm("", "", map[]))
      == [NameTooShort, CommentTooShort, RatingMissing(B1), RatingMissing(B2),
          RatingMissing(B3), RatingMissing(B4), RatingMissing(B5)]
  {
    var r: Ratings := map[];
    assert RatingViolations(r, 1) == [RatingMissing(B1)];
    assert RatingViolations(r, 2) == [RatingMissing(B1), RatingMissing(B2)];
    assert RatingViolations(r, 3) == [RatingMissing(B1), RatingMissing(B2), RatingMissing(B3)];
    assert RatingViolations(r, 4)
      == [RatingMissing(B1), RatingMissing(B2), RatingMissing(B3), RatingMissing(B4)];
  }

  /** A one-letter name on an otherwise complete draft gives exactly the name error. */
  lemma ShortNameOnly(comment: string, ratings: Ratings)
    requires CommentOk(comment)
    requires forall c: Criterion :: RatingOk(ratings, c)
    ensures Violations(ReviewForm("A", comment, ratings)) == [NameTooShort]
  {
    RatingViolationsNone(ratings, |AllCriteria|);
  }

  /**
   * Lengths are counted in UTF-16 code units: a name of one character
   * outside the Basic Multilingual Plane is long enough, while one letter is not.
   */
  lemma NameLengthInCodeUnits()
    ensures NameOk("\U{1F600}")
    ensures !NameOk("A")
  {
    TrimUntrimmable("\U{1F600}");
    TrimUntrimmable("A");
  }
}
