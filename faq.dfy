/** `src/components/InteractiveFAQ.tsx`: which answers are open, the category
    buttons derived from the data, and the category filter. */
module InteractiveFAQ {
  import opened Common

  /** An entry; the answer text and icon are presentation only. */
  datatype FAQItem = FAQItem(id: int, question: string, category: string)

  const FaqData: seq<FAQItem> := [
    FAQItem(1, "How fast do TurboKart go-karts go?", "Performance"),
    FAQItem(2, "What's included with my go-kart purchase?", "Purchase"),
    FAQItem(3, "How long does shipping take?", "Shipping"),
    FAQItem(4, "Is assembly required?", "Assembly"),
    FAQItem(5, "What age groups are these suitable for?", "Safety"),
    FAQItem(6, "What's your warranty and return policy?", "Warranty")
  ]

  /** Toggling an answer twice leaves every answer open or closed as before. */
  lemma ToggleTwiceSameOpenSet(open: seq<int>, id: int)
    requires Distinct(open)
    ensures forall y :: y in Toggle(Toggle(open, id), id) <==> y in open
  {
    if id in open {
      TogglePresentTwice(open, id);
      forall y ensures y in Toggle(Toggle(open, id), id) <==> y in open {
        if y in open {
          var i :| 0 <= i < |open| && open[i] == y;
        }
      }
    } else {
      ToggleTwiceAbsent(open, id);
    }
  }

  // ---------------------------------------------------------------------------
  // Categories

  function CategoryList(items: seq<FAQItem>): (r: seq<string>)
    ensures |r| == |items|
    ensures forall i :: 0 <= i < |items| ==> r[i] == items[i].category
  {
    if items == [] then [] else [items[0].category] + CategoryList(items[1..])
  }

  /** `Array.from(new Set(values))`: each value is added in turn and kept
      only the first time it is seen. */
  function Dedup(values: seq<string>): (r: seq<string>)
    ensures Distinct(r)
    ensures forall x :: x in r <==> x in values
  {
    if values == [] then []
    else
      var r := Dedup(values[..|values| - 1]);
      var last := values[|values| - 1];
      assert forall x :: x in values <==> x in values[..|values| - 1] || x == last by {
        assert values == values[..|values| - 1] + [last];
      }
      if last in r then r
      else
        assert Distinct(r + [last]) by {
          forall i, j | 0 <= i < j < |r + [last]| ensures (r + [last])[i] != (r + [last])[j] {
            if j == |r| { assert (r + [last])[i] == r[i]; }
          }
        }
        r + [last]
  }

  /** Position of the first occurrence of `x`. */
  function FirstIndex(values: seq<string>, x: string): (k: nat)
    requires x in values
    ensures k < |values| && values[k] == x
    ensures forall i :: 0 <= i < k ==> values[i] != x
  {
    if values[0] == x then 0 else 1 + FirstIndex(values[1..], x)
  }

  lemma {:induction false} FirstIndexExtend(p: seq<string>, c: string, x: string)
    requires x in p
    ensures FirstIndex(p + [c], x) == FirstIndex(p, x)
  {
    var k := FirstIndex(p, x);
    assert (p + [c])[k] == x;
  }

  /** The deduplicated list is in order of first occurrence. */
  lemma {:induction false} DedupFirstOccurrenceOrder(values: seq<string>)
    ensures forall i, j :: 0 <= i < j < |Dedup(values)| ==>
      FirstIndex(values, Dedup(values)[i]) < FirstIndex(values, Dedup(values)[j])
  {
    if values != [] {
      var p := values[..|values| - 1];
      var last := values[|values| - 1];
      assert values == p + [last];
      DedupFirstOccurrenceOrder(p);
      var r := Dedup(p);
      forall i, j | 0 <= i < j < |Dedup(values)|
        ensures FirstIndex(values, Dedup(values)[i]) < FirstIndex(values, Dedup(values)[j])
      {
        var a, b := Dedup(values)[i], Dedup(values)[j];
        assert a == r[i];
        FirstIndexExtend(p, last, a);
        if j < |r| {
          assert b == r[j];
          FirstIndexExtend(p, last, b);
        } else {
          assert b == last && last !in p;
          assert FirstIndex(values, b) == |p|;
        }
      }
    }
  }

  /** `categories`. */
  function Categories(items: seq<FAQItem>): seq<string> {
    Dedup(CategoryList(items))
  }

  /** Values that are already distinct come back unchanged. */
  lemma {:induction false} DedupDistinct(values: seq<string>)
    requires Distinct(values)
    ensures Dedup(values) == values
  {
    if values != [] {
      var p := values[..|values| - 1];
      DedupDistinct(p);
      assert values[|values| - 1] !in p;
      assert p + [values[|values| - 1]] == values;
    }
  }

  /** The six categories of the shipped data, in order. */
  const ShippedCategoryNames: seq<string> := ["Performance", "Purchase", "Shipping", "Assembly", "Safety", "Warranty"]

  lemma ShippedCategoryList()
    ensures CategoryList(FaqData) == ShippedCategoryNames
  {
  }

  lemma ShippedCategoryNamesDistinct()
    ensures Distinct(ShippedCategoryNames)
  {
  }

  /** The category buttons offered for the shipped data. */
  lemma ShippedCategories()
    ensures Categories(FaqData) == ShippedCategoryNames
  {
    ShippedCategoryList();
    ShippedCategoryNamesDistinct();
    DedupDistinct(ShippedCategoryNames);
  }

  // ---------------------------------------------------------------------------
  // The filter

  /** `items.filter(item => item.category === c)`. */
  function WithCategory(items: seq<FAQItem>, c: string): (r: seq<FAQItem>)
    ensures |r| <= |items|
    ensures forall i :: 0 <= i < |r| ==> r[i] in items && r[i].category == c
    ensures forall i :: 0 <= i < |items| && items[i].category == c ==> items[i] in r
  {
    if items == [] then []
    else if items[0].category == c then [items[0]] + WithCategory(items[1..], c)
    else WithCategory(items[1..], c)
  }

  /** The filter keeps the original order: filtering a concatenation is
      concatenating the filtered parts. */
  lemma {:induction false} WithCategoryAppend(a: seq<FAQItem>, b: seq<FAQItem>, c: string)
    ensures WithCategory(a + b, c) == WithCategory(a, c) + WithCategory(b, c)
  {
    if a == [] {
      assert a + b == b;
    } else {
      assert (a + b)[1..] == a[1..] + b;
      WithCategoryAppend(a[1..], b, c);
    }
  }

  /** `filteredFAQs`: every entry when no category (or a falsy one) is
      selected, otherwise the entries of that category. */
  function Filtered(items: seq<FAQItem>, selected: Option<string>): (r: seq<FAQItem>)
    ensures selected.None? || selected.value == "" ==> r == items
    ensures selected.Some? && selected.value != "" ==>
      forall i :: 0 <= i < |r| ==> r[i].category == selected.value
  {
    if selected.None? || selected.value == "" then items else WithCategory(items, selected.value)
  }

  class FAQ {
    var openItems: seq<int>
    var selectedCategory: Option<string>

    constructor ()
      ensures openItems == [] && selectedCategory == None
    {
      openItems := [];
      selectedCategory := None;
    }

    /** `toggleItem`. */
    method ToggleItem(id: int)
      requires Distinct(openItems)
      modifies this`openItems
      ensures Distinct(openItems)
      ensures id in openItems <==> id !in old(openItems)
      ensures forall y :: y != id ==> (y in openItems <==> y in old(openItems))
      ensures openItems == Toggle(old(openItems), id)
    {
      openItems := Toggle(openItems, id);
      forall y | y != id ensures y in openItems <==> y in old(openItems) {
        if y in old(openItems) {
          var i :| 0 <= i < |old(openItems)| && old(openItems)[i] == y;
        }
        if y in openItems {
          var i :| 0 <= i < |openItems| && openItems[i] == y;
        }
      }
    }

    /** A category button, or "All Questions" with `None`: the open answers
        are left as they are. */
    method SelectCategory(c: Option<string>)
      modifies this`selectedCategory
      ensures selectedCategory == c && openItems == old(openItems)
    {
      selectedCategory := c;
    }

    function Visible(): seq<FAQItem>
      reads this
    {
      Filtered(FaqData, selectedCategory)
    }
  }
}
