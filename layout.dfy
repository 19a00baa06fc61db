/** The grid's axis labels and canvas size: the period and group label
    lists, the removal of user-chosen periods and groups (`list.remove`),
    the extra "blank"/"La"/"Ac" rows, and the integer canvas rescale. */
module Layout {
  import opened Wrappers
  import opened PyText

  /** The seven period labels, "1" to "7". */
  const PeriodLabels: seq<string> := ["1", "2", "3", "4", "5", "6", "7"]

  /** The eighteen group labels, the decimal strings of 1 to 18. */
  function GroupRange(): (r: seq<string>)
    ensures |r| == 18
  {
    seq(18, k requires 0 <= k < 18 => Str(k + 1))
  }

  /** The rows appended below the main table for the lanthanoids and
      actinoids, after a blank spacer row. */
  const SeriesRows: seq<string> := ["blank", "La", "Ac"]

  predicate Distinct<T(==)>(s: seq<T>) {
    forall i, j :: 0 <= i < j < |s| ==> s[i] != s[j]
  }

  /** The period labels are the decimal strings of 1..7, and no two labels
      of either axis coincide. */
  lemma LabelListsDistinct()
    ensures forall k :: 0 <= k < 7 ==> PeriodLabels[k] == Str(k + 1)
    ensures Distinct(PeriodLabels) && Distinct(GroupRange())
  {
    forall i, j | 0 <= i < j < 18
      ensures GroupRange()[i] != GroupRange()[j]
    {
      if GroupRange()[i] == GroupRange()[j] {
        StrInjective(i + 1, j + 1);
      }
    }
  }

  /** `str(g)` names a group label exactly when `g` is a group number. */
  lemma GroupLabelOf(g: int)
    ensures Str(g) in GroupRange() <==> 1 <= g <= 18
  {
    if 1 <= g <= 18 {
      assert GroupRange()[g - 1] == Str(g);
    }
    if Str(g) in GroupRange() {
      var k :| 0 <= k < 18 && GroupRange()[k] == Str(g);
      StrInjective(k + 1, g);
    }
  }

  // ---------------------------------------------------------------- removal

  /** Successive `labels.remove(x)` for each `x` of `toRemove`, in order;
      None is the `ValueError` of the first absent label. */
  function RemoveAll(labels: seq<string>, toRemove: seq<string>): Option<seq<string>>
  {
    if toRemove == [] then Some(labels)
    else
      match RemoveAll(labels, toRemove[..|toRemove| - 1])
      case None => None
      case Some(rest) => RemoveFirst(rest, toRemove[|toRemove| - 1])
  }

  /** `labels` without the members of `dropped`, in the original order. */
  function Without(labels: seq<string>, dropped: seq<string>): (r: seq<string>)
    ensures forall x :: x in r <==> x in labels && x !in dropped
  {
    if labels == [] then []
    else if labels[0] in dropped then Without(labels[1..], dropped)
    else [labels[0]] + Without(labels[1..], dropped)
  }

  /** The removal loop: each requested group (or period) label is removed
      from the shown labels in turn. */
  method RemoveLabels(labels: seq<string>, toRemove: seq<string>) returns (r: Option<seq<string>>)
    ensures r == RemoveAll(labels, toRemove)
  {
    var current := labels;
    for i := 0 to |toRemove|
      invariant RemoveAll(labels, toRemove[..i]) == Some(current)
    {
      assert toRemove[..i + 1][..i] == toRemove[..i];
      var next := RemoveFirst(current, toRemove[i]);
      if next.None? {
        assert RemoveAll(labels, toRemove[..i + 1]) == None;
        RemoveAllFailurePersists(labels, toRemove, i + 1);
        return None;
      }
      current := next.value;
    }
    assert toRemove[..|toRemove|] == toRemove;
    return Some(current);
  }

  /** Once a removal fails, the whole removal fails. */
  lemma {:induction false} RemoveAllFailurePersists(labels: seq<string>, toRemove: seq<string>, n: nat)
    requires n <= |toRemove| && RemoveAll(labels, toRemove[..n]) == None
    ensures RemoveAll(labels, toRemove) == None
    decreases |toRemove| - n
  {
    if n < |toRemove| {
      assert toRemove[..n + 1][..n] == toRemove[..n];
      RemoveAllFailurePersists(labels, toRemove, n + 1);
    } else {
      assert toRemove[..n] == toRemove;
    }
  }

  lemma {:induction false} WithoutAbsent(labels: seq<string>, dropped: seq<string>, x: string)
    requires x !in labels
    ensures Without(labels, dropped + [x]) == Without(labels, dropped)
  {
    if labels != [] {
      WithoutAbsent(labels[1..], dropped, x);
    }
  }

  /** Removing one more present, not yet dropped label from a filtered list
      is filtering it out as well. */
  lemma {:induction false} RemoveFromWithout(labels: seq<string>, dropped: seq<string>, x: string)
    requires Distinct(labels) && x in labels && x !in dropped
    ensures RemoveFirst(Without(labels, dropped), x) == Some(Without(labels, dropped + [x]))
  {
    var h, t := labels[0], labels[1..];
    assert labels == [h] + t;
    assert Distinct(t) by {
      forall i, j | 0 <= i < j < |t| ensures t[i] != t[j] {
        assert t[i] == labels[i + 1] && t[j] == labels[j + 1];
      }
    }
    if h == x {
      assert x !in t by {
        forall k | 0 <= k < |t| ensures t[k] != x {
          assert t[k] == labels[k + 1];
        }
      }
      WithoutAbsent(t, dropped, x);
      RemoveFirstHead(Without(t, dropped), x);
    } else if h in dropped {
      RemoveFromWithout(t, dropped, x);
    } else {
      RemoveFromWithout(t, dropped, x);
      RemoveFirstCons(h, Without(t, dropped), x);
    }
  }

  /** On a list of distinct labels, the removals succeed exactly when the
      labels to remove are distinct members of the list, and then leave the
      list minus those labels, order preserved. */
  lemma {:induction false} RemoveAllIsFilter(labels: seq<string>, toRemove: seq<string>)
    requires Distinct(labels)
    ensures RemoveAll(labels, toRemove).Some? <==> Distinct(toRemove) && forall x :: x in toRemove ==> x in labels
    ensures RemoveAll(labels, toRemove).Some? ==> RemoveAll(labels, toRemove).value == Without(labels, toRemove)
  {
    if toRemove == [] {
      assert Without(labels, []) == labels by {
        WithoutNothing(labels);
      }
    } else {
      var front, x := toRemove[..|toRemove| - 1], toRemove[|toRemove| - 1];
      assert toRemove == front + [x];
      RemoveAllIsFilter(labels, front);
      var distinctSplit := Distinct(toRemove) <==> Distinct(front) && x !in front;
      assert distinctSplit by {
        if Distinct(front) && x !in front {
          forall i, j | 0 <= i < j < |toRemove| ensures toRemove[i] != toRemove[j] {
            if j < |front| {
              assert toRemove[i] == front[i] && toRemove[j] == front[j];
            } else {
              assert toRemove[i] == front[i];
            }
          }
        }
        if Distinct(toRemove) {
          forall k | 0 <= k < |front| ensures front[k] != x {
            assert front[k] == toRemove[k];
          }
          forall i, j | 0 <= i < j < |front| ensures front[i] != front[j] {
            assert front[i] == toRemove[i] && front[j] == toRemove[j];
          }
        }
      }
      if RemoveAll(labels, front).Some? {
        var rest := RemoveAll(labels, front).value;
        assert rest == Without(labels, front);
        if x in labels && x !in front {
          RemoveFromWithout(labels, front, x);
        }
      }
    }
  }

  lemma {:induction false} WithoutNothing(labels: seq<string>)
    ensures Without(labels, []) == labels
  {
    if labels != [] {
      WithoutNothing(labels[1..]);
    }
  }

  // ---------------------------------------------------------------- rescale

  /** The canvas rescale: the height scales with the number of period rows
      over ten, the width with the number of group columns plus two over
      twenty. Python's floor division agrees with Dafny's `/` for the
      positive divisors 10 and 20. */
  function Rescale(width: int, height: int, periodCount: nat, groupCount: nat): (int, int) {
    (width * (groupCount + 2) / 20, height * periodCount / 10)
  }

  /** With nothing removed and the three extra rows appended, the rescale
      keeps the requested size; removing rows or columns never enlarges a
      non-negative canvas. */
  lemma RescaleFullTable(width: int, height: int, periodCount: nat, groupCount: nat)
    ensures Rescale(width, height, |PeriodLabels + SeriesRows|, |GroupRange()|) == (width, height)
    ensures width >= 0 && height >= 0 && periodCount <= 10 && groupCount <= 18 ==>
      Rescale(width, height, periodCount, groupCount).0 <= width &&
      Rescale(width, height, periodCount, groupCount).1 <= height
  {
    assert |PeriodLabels + SeriesRows| == 10;
    if width >= 0 && height >= 0 && periodCount <= 10 && groupCount <= 18 {
      assert width * (groupCount + 2) <= width * 20;
      assert height * periodCount <= height * 10;
    }
  }
}
