/**
 * The blog category filter. Each filter button carries a category; each blog card carries
 * a space-separated list of categories. Clicking a button (or pressing Enter or Space on it)
 * marks that button alone as active, shows exactly the cards that match its category, and
 * shows the "no posts" message exactly when no card is shown.
 */
module BlogFilter {
  import opened JsValues

  const AllCategories := "all"

  /** `s.split(' ')`: the pieces between single spaces; consecutive spaces give empty pieces. */
  function Split(s: string): (r: seq<string>)
    ensures |r| >= 1
  {
    if |s| == 0 then [""]
    else
      var rest := Split(s[1..]);
      if s[0] == ' ' then [""] + rest else [[s[0]] + rest[0]] + rest[1..]
  }

  predicate NoSpace(t: string)
  {
    forall k :: 0 <= k < |t| ==> t[k] != ' '
  }

  /** Splitting never leaves a space inside a piece. */
  lemma {:induction false} SplitPiecesHaveNoSpace(s: string)
    ensures forall t :: t in Split(s) ==> NoSpace(t)
  {
    if |s| > 0 {
      SplitPiecesHaveNoSpace(s[1..]);
      var rest := Split(s[1..]);
      if s[0] != ' ' {
        assert rest[0] in rest;
        var first := [s[0]] + rest[0];
        assert NoSpace(first) by {
          forall k | 0 <= k < |first| ensures first[k] != ' ' {
            if k > 0 { assert first[k] == rest[0][k - 1]; }
          }
        }
        forall t | t in Split(s) ensures NoSpace(t) {
          if t != first {
            assert t in rest[1..];
          }
        }
      }
    }
  }

  /** Joining the pieces with single spaces gives the original string back. */
  lemma {:induction false} JoinSplit(s: string)
    ensures JoinWith(Split(s), " ") == s
  {
    if |s| > 0 {
      JoinSplit(s[1..]);
      var rest := Split(s[1..]);
      if s[0] == ' ' {
        assert Split(s) == [""] + rest;
        assert Split(s)[1..] == rest;
      } else {
        var first := [s[0]] + rest[0];
        assert Split(s) == [first] + rest[1..];
        if |rest| == 1 {
          assert JoinWith(Split(s), " ") == first;
        } else {
          assert JoinWith(rest, " ") == rest[0] + " " + JoinWith(rest[1..], " ");
          assert JoinWith(Split(s), " ") == first + " " + JoinWith(rest[1..], " ");
        }
      }
    }
  }

  /** Pieces without spaces, joined with single spaces, split back into the same pieces. */
  lemma {:induction false} SplitJoin(parts: seq<string>)
    requires |parts| >= 1 && forall i :: 0 <= i < |parts| ==> NoSpace(parts[i])
    ensures Split(JoinWith(parts, " ")) == parts
  {
    if |parts| == 1 {
      SplitNoSpace(parts[0]);
    } else {
      SplitJoin(parts[1..]);
      SplitPrefix(parts[0], JoinWith(parts[1..], " "));
      assert [parts[0]] + parts[1..] == parts;
    }
  }

  /** A string without spaces is a single piece. */
  lemma {:induction false} SplitNoSpace(t: string)
    requires NoSpace(t)
    ensures Split(t) == [t]
  {
    if |t| > 0 {
      SplitNoSpace(t[1..]);
      assert [t[0]] + t[1..] == t;
    }
  }

  /** A space-free word followed by a space and more text splits into the word and the rest's pieces. */
  lemma {:induction false} SplitPrefix(word: string, rest: string)
    requires NoSpace(word)
    ensures Split(word + " " + rest) == [word] + Split(rest)
  {
    if |word| == 0 {
      assert word + " " + rest == " " + rest;
      assert (" " + rest)[1..] == rest;
    } else {
      var s := word + " " + rest;
      assert s[1..] == word[1..] + " " + rest;
      SplitPrefix(word[1..], rest);
      assert [word[0]] + word[1..] == word;
    }
  }

  /** A card is shown when the category is `all` or is one of the card's categories. */
  predicate Matches(category: string, cardCategories: string)
  {
    category == AllCategories || category in Split(cardCategories)
  }

  /**
   * Matching is on whole categories: for a category other than `all`, a card whose category
   * list is space-free names joined by single spaces matches exactly when the category is one
   * of those names.
   */
  lemma WholeCategoryMatch(category: string, parts: seq<string>)
    requires category != AllCategories
    requires |parts| >= 1 && forall i :: 0 <= i < |parts| ==> NoSpace(parts[i])
    ensures Matches(category, JoinWith(parts, " ")) <==> category in parts
  {
    SplitJoin(parts);
  }

  /**
   * A category that is only the beginning of one of the card's categories does not match,
   * although the card's category text contains it.
   */
  lemma PartialCategoryDoesNotMatch(category: string, suffix: string, other: string)
    requires category != AllCategories && suffix != "" && category != other
    requires NoSpace(category + suffix) && NoSpace(other)
    ensures StartsWith(category + suffix + " " + other, category)
    ensures !Matches(category, category + suffix + " " + other)
  {
    var card := category + suffix + " " + other;
    assert card[..|category|] == category;
    SplitPrefix(category + suffix, other);
    SplitNoSpace(other);
    assert Split(card) == [category + suffix, other];
  }

  /** The visibility of each card for a category, in card order. */
  function Visibility(category: string, cards: seq<string>): (r: seq<bool>)
    ensures |r| == |cards|
    ensures forall i :: 0 <= i < |cards| ==> r[i] == Matches(category, cards[i])
  {
    seq(|cards|, i requires 0 <= i < |cards| => Matches(category, cards[i]))
  }

  /** The number of cards shown for a category. */
  function VisibleCount(category: string, cards: seq<string>): nat
  {
    if |cards| == 0 then 0
    else VisibleCount(category, cards[..|cards| - 1]) + (if Matches(category, cards[|cards| - 1]) then 1 else 0)
  }

  /** The count is at most the number of cards, and is zero exactly when no card matches. */
  lemma {:induction false} VisibleCountBounds(category: string, cards: seq<string>)
    ensures VisibleCount(category, cards) <= |cards|
    ensures VisibleCount(category, cards) == 0 <==> forall i :: 0 <= i < |cards| ==> !Matches(category, cards[i])
    ensures category == AllCategories ==> VisibleCount(category, cards) == |cards|
  {
    if |cards| > 0 {
      var init := cards[..|cards| - 1];
      VisibleCountBounds(category, init);
      assert forall i :: 0 <= i < |init| ==> init[i] == cards[i];
    }
  }

  /** The flags of the buttons after button `b` is clicked: only `b` is active. */
  function OnlyActive(n: nat, b: nat): (r: seq<bool>)
    ensures |r| == n
    ensures forall i :: 0 <= i < n ==> (r[i] <==> i == b)
  {
    seq(n, i => i == b)
  }

  /** Enter and Space activate a button as a click does. */
  predicate IsActivationKey(key: string)
  {
    key == "Enter" || key == " "
  }

  /** The filter section of the blog page: its buttons, its cards and the "no posts" message. */
  class FilterPage {
    const buttonCategories: seq<string>
    const cardCategories: seq<string>
    /** `active[i]`: button i carries the `active` class. */
    const active: array<bool>
    /** `shown[i]`: card i is displayed. */
    const shown: array<bool>
    var noPostsShown: bool

    ghost predicate Valid()
      reads this
    {
      active.Length == |buttonCategories| && shown.Length == |cardCategories| && active != shown
    }

    /** The page as it is after a click on button `b`. */
    ghost predicate ShowsClickOf(b: nat)
      requires Valid() && b < |buttonCategories|
      reads this, active, shown
    {
      && active[..] == OnlyActive(|buttonCategories|, b)
      && shown[..] == Visibility(buttonCategories[b], cardCategories)
      && noPostsShown == (VisibleCount(buttonCategories[b], cardCategories) == 0)
    }

    /**
     * The page as its markup leaves it before any click: which buttons carry the `active`
     * class, which cards are displayed and whether the "no posts" message shows.
     */
    constructor(buttonCategories: seq<string>, cardCategories: seq<string>,
                initiallyActive: seq<bool>, initiallyShown: seq<bool>, initiallyNoPosts: bool)
      requires |initiallyActive| == |buttonCategories| && |initiallyShown| == |cardCategories|
      ensures Valid() && fresh(active) && fresh(shown)
      ensures this.buttonCategories == buttonCategories && this.cardCategories == cardCategories
      ensures active[..] == initiallyActive && shown[..] == initiallyShown
      ensures noPostsShown == initiallyNoPosts
    {
      this.buttonCategories := buttonCategories;
      this.cardCategories := cardCategories;
      active := new bool[|buttonCategories|](i requires 0 <= i < |buttonCategories| => initiallyActive[i]);
      shown := new bool[|cardCategories|](i requires 0 <= i < |cardCategories| => initiallyShown[i]);
      noPostsShown := initiallyNoPosts;
    }

    /**
     * The click handler of button `b`: clears every button's active flag, sets the clicked
     * one's, shows each card that matches the category and hides the rest while counting the
     * shown ones, then shows the "no posts" message exactly when the count is zero.
     */
    method Click(b: nat) returns (visibleCount: nat)
      requires Valid() && b < |buttonCategories|
      modifies active, shown, this`noPostsShown
      ensures Valid() && ShowsClickOf(b)
      ensures visibleCount == VisibleCount(buttonCategories[b], cardCategories)
    {
      var category := buttonCategories[b];

      var i := 0;
      while i < active.Length
        invariant 0 <= i <= active.Length
        invariant forall k :: 0 <= k < i ==> !active[k]
      {
        active[i] := false;
        i := i + 1;
      }
      active[b] := true;
      assert active[..] == OnlyActive(|buttonCategories|, b);

      visibleCount := 0;
      var c := 0;
      while c < shown.Length
        invariant 0 <= c <= shown.Length
        invariant forall k :: 0 <= k < c ==> shown[k] == Matches(category, cardCategories[k])
        invariant visibleCount == VisibleCount(category, cardCategories[..c])
        invariant active[..] == OnlyActive(|buttonCategories|, b)
      {
        assert cardCategories[..c + 1][..c] == cardCategories[..c];
        if Matches(category, cardCategories[c]) {
          shown[c] := true;
          visibleCount := visibleCount + 1;
        } else {
          shown[c] := false;
        }
        c := c + 1;
      }
      assert cardCategories[..c] == cardCategories;

      if visibleCount == 0 {
        noPostsShown := true;
      } else {
        noPostsShown := false;
      }
    }

    /** The keydown handler of button `b`: Enter or Space act as a click; other keys do nothing. */
    method KeyDown(b: nat, key: string)
      requires Valid() && b < |buttonCategories|
      modifies active, shown, this`noPostsShown
      ensures Valid()
      ensures IsActivationKey(key) ==> ShowsClickOf(b)
      ensures !IsActivationKey(key) ==>
                active[..] == old(active[..]) && shown[..] == old(shown[..]) && noPostsShown == old(noPostsShown)
    {
      if IsActivationKey(key) {
        var _ := Click(b);
      }
    }
  }
}
