/**
 * How `extract` turns a CSV file name into the key of its dataset:
 * `file.replace('olist_', '').replace('_dataset.csv', '')`.
 */
module KeyNames {

  const Prefix := "olist_"
  const Suffix := "_dataset.csv"

  predicate StartsWith(s: string, pat: string)
  {
    |pat| <= |s| && s[..|pat|] == pat
  }

  /** `pat` occurs somewhere in `s`. */
  predicate Occurs(pat: string, s: string)
    requires pat != []
    decreases |s|
  {
    |pat| <= |s| && (StartsWith(s, pat) || Occurs(pat, s[1..]))
  }

  /**
   * Python's `s.replace(pat, rep)`: scanning from the left, every
   * occurrence of `pat` that does not overlap an earlier replaced one is
   * replaced by `rep`.
   */
  function Replace(s: string, pat: string, rep: string): (r: string)
    requires pat != []
    ensures |rep| <= |pat| ==> |r| <= |s|
    ensures |pat| <= |rep| ==> |s| <= |r|
    decreases |s|
  {
    if |s| < |pat| then s
    else if StartsWith(s, pat) then rep + Replace(s[|pat|..], pat, rep)
    else [s[0]] + Replace(s[1..], pat, rep)
  }

  /** The key of a file: both markers removed wherever they occur; it is never longer than the file name. */
  function KeyName(file: string): (k: string)
    ensures |k| <= |file|
  {
    Replace(Replace(file, Prefix, ""), Suffix, "")
  }

  lemma {:induction false} ReplaceAbsent(s: string, pat: string, rep: string)
    requires pat != [] && !Occurs(pat, s)
    ensures Replace(s, pat, rep) == s
  {
    if |pat| <= |s| {
      ReplaceAbsent(s[1..], pat, rep);
    }
  }

  lemma {:induction false} ReplaceLeading(s: string, pat: string, rep: string)
    requires pat != []
    ensures Replace(pat + s, pat, rep) == rep + Replace(s, pat, rep)
  {
    assert (pat + s)[..|pat|] == pat;
    assert (pat + s)[|pat|..] == s;
  }

  /** One scanning step over `s + pat` when `pat` is first met at its very end. */
  lemma {:induction false} TrailingStep(s: string, pat: string)
    requires s != [] && pat != [] && !Occurs(pat, (s + pat)[..|s| + |pat| - 1])
    ensures !StartsWith(s + pat, pat)
    ensures (s + pat)[1..] == s[1..] + pat
    ensures !Occurs(pat, (s[1..] + pat)[..|s| - 1 + |pat| - 1])
  {
    var t := s + pat;
    var u := t[..|t| - 1];
    assert u[..|pat|] == t[..|pat|];
    assert !StartsWith(u, pat);
    assert t[1..] == s[1..] + pat;
    assert u[1..] == (s[1..] + pat)[..|s| - 1 + |pat| - 1];
  }

  /** When `pat` is first met at the very end of `s + pat`, only that occurrence is replaced. */
  lemma {:induction false} ReplaceTrailing(s: string, pat: string, rep: string)
    requires pat != [] && !Occurs(pat, (s + pat)[..|s| + |pat| - 1])
    ensures Replace(s + pat, pat, rep) == s + rep
  {
    if s == [] {
      assert s + pat == pat + [];
      ReplaceLeading([], pat, rep);
    } else {
      var s' := s[1..];
      TrailingStep(s, pat);
      ReplaceTrailing(s', pat, rep);
      assert Replace(s + pat, pat, rep) == [s[0]] + Replace(s' + pat, pat, rep);
      assert s == [s[0]] + s';
    }
  }

  /**
   * If the last character of `pat` appears nowhere else in it, `pat` cannot
   * start inside `s` and run on into a following copy of itself.
   */
  lemma {:induction false} NoStraddle(s: string, pat: string)
    requires pat != [] && !Occurs(pat, s)
    requires forall i :: 0 <= i < |pat| - 1 ==> pat[i] != pat[|pat| - 1]
    ensures !Occurs(pat, (s + pat)[..|s| + |pat| - 1])
  {
    var u := (s + pat)[..|s| + |pat| - 1];
    if s != [] {
      if |s| < |pat| {
        assert u[|pat| - 1] == pat[|pat| - 1 - |s|];
        assert !StartsWith(u, pat);
        assert !Occurs(pat, s[1..]);
      } else {
        assert u[..|pat|] == s[..|pat|];
      }
      assert u[1..] == (s[1..] + pat)[..|s| - 1 + |pat| - 1];
      NoStraddle(s[1..], pat);
    }
  }

  /**
   * A file named "olist_" + s + "_dataset.csv" gets the key `s`, provided
   * neither marker is met anywhere else while scanning. The first condition
   * is about `s + "_dataset.csv"`, not `s` alone: see `KeyNameOfMarkerLikeName`.
   */
  lemma {:induction false} KeyNameOfDatasetFile(s: string)
    requires !Occurs(Prefix, s + Suffix) && !Occurs(Suffix, s)
    ensures KeyName(Prefix + s + Suffix) == s
  {
    assert Prefix + s + Suffix == Prefix + (s + Suffix);
    ReplaceLeading(s + Suffix, Prefix, "");
    ReplaceAbsent(s + Suffix, Prefix, "");
    assert Replace(Prefix + s + Suffix, Prefix, "") == s + Suffix;
    NoStraddle(s, Suffix);
    ReplaceTrailing(s, Suffix, "");
    assert s + "" == s;
  }

  /** A pattern holding a character that `s` lacks does not occur in `s`. */
  lemma {:induction false} AbsentByCharacter(pat: string, s: string, k: nat)
    requires pat != [] && k < |pat| && pat[k] !in s
    ensures !Occurs(pat, s)
  {
    if |pat| <= |s| {
      assert s[..|pat|][k] == s[k];
      AbsentByCharacter(pat, s[1..], k);
    }
  }

  /** Both leading copies of the prefix are removed, not only the first. */
  lemma {:induction false} KeyNameOfDoublePrefix(t: string)
    requires Prefix[1] !in t && Suffix[0] !in t
    ensures KeyName(Prefix + Prefix + t) == t
  {
    assert Prefix + Prefix + t == Prefix + (Prefix + t);
    ReplaceLeading(Prefix + t, Prefix, "");
    ReplaceLeading(t, Prefix, "");
    AbsentByCharacter(Prefix, t, 1);
    ReplaceAbsent(t, Prefix, "");
    assert Replace(Prefix + Prefix + t, Prefix, "") == t;
    AbsentByCharacter(Suffix, t, 0);
    ReplaceAbsent(t, Suffix, "");
  }

  /** "olist" contains neither marker, yet "olist_olist_dataset.csv" does not get the key "olist". */
  lemma KeyNameOfMarkerLikeName()
    ensures KeyName(Prefix + "olist" + Suffix) == "dataset.csv"
  {
    assert Prefix + "olist" + Suffix == Prefix + Prefix + "dataset.csv";
    KeyNameOfDoublePrefix("dataset.csv");
  }

  /** A name without an 'l' or a 'v' can meet neither marker. */
  lemma {:induction false} KeyNameOfPlainName(s: string)
    requires Prefix[1] !in s && Suffix[|Suffix| - 1] !in s
    ensures KeyName(Prefix + s + Suffix) == s
  {
    assert Prefix[1] !in Suffix;
    AbsentByCharacter(Prefix, s + Suffix, 1);
    AbsentByCharacter(Suffix, s, |Suffix| - 1);
    KeyNameOfDatasetFile(s);
  }

  /** The three files `extract` loads get the keys "customers", "orders" and "order_items". */
  lemma KeyNameOfCustomersFile()
    ensures KeyName("olist_customers_dataset.csv") == "customers"
  {
    KeyNameOfPlainName("customers");
    assert "olist_customers_dataset.csv" == Prefix + "customers" + Suffix;
  }

  lemma KeyNameOfOrdersFile()
    ensures KeyName("olist_orders_dataset.csv") == "orders"
  {
    KeyNameOfPlainName("orders");
    assert "olist_orders_dataset.csv" == Prefix + "orders" + Suffix;
  }

  lemma KeyNameOfOrderItemsFile()
    ensures KeyName("olist_order_items_dataset.csv") == "order_items"
  {
    KeyNameOfPlainName("order_items");
    assert "olist_order_items_dataset.csv" == Prefix + "order_items" + Suffix;
  }
}
