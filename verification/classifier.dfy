/** The per-transaction classifier (`analyzeTxType` with its lookup taken out)
    and the per-batch tally of its results. */
module Classifier {
  import opened TxTypes

  /** Calldata is a `0x`-prefixed hex string; its first ten characters are the
      prefix and the 4-byte method selector. */
  const SelectorLength: nat := 10

  /** Selectors of calls that send the native asset away for tokens. */
  const SellSelectors: seq<string> :=
    ["0x7ff36ab5", "0xfb3bdb41", "0xb6f9de95", "0x7c025200", "0x12aa3caf"]

  /** Selectors of calls that receive the native asset for tokens. */
  const BuySelectors: seq<string> :=
    ["0x18cbafe5", "0x4a25d94a", "0x791ac947", "0xdb3e2198", "0xf28c0498"]

  /** Swap and multicall selectors whose direction depends on the value sent. */
  const GenericSwapSelectors: seq<string> :=
    ["0x38ed1739", "0x8803dbee", "0x5c11d795", "0x414bf389",
     "0xc04b8d59", "0x5ae401dc", "0xac9650d8", "0xe449022e"]

  predicate IsUpper(c: char) {
    'A' <= c <= 'Z'
  }

  /** Lower-casing of one character; only ASCII letters change. */
  function LowerChar(c: char): (d: char)
    ensures !IsUpper(d)
    ensures !IsUpper(c) ==> d == c
    ensures IsUpper(c) ==> d as int - c as int == 'a' as int - 'A' as int
  {
    if IsUpper(c) then (c as int + ('a' as int - 'A' as int)) as char else c
  }

  function Lower(s: string): (r: string)
    ensures |r| == |s|
    ensures forall k :: 0 <= k < |s| ==> r[k] == LowerChar(s[k])
  {
    seq(|s|, k requires 0 <= k < |s| => LowerChar(s[k]))
  }

  /** True when the calldata is long enough to pass the length guard. */
  predicate HasSelector(tx: TxDetail) {
    tx.input.Some? && |tx.input.value| > SelectorLength
  }

  /** The lower-cased first ten characters of the calldata. */
  function Selector(tx: TxDetail): (m: string)
    requires HasSelector(tx)
    ensures |m| == SelectorLength
    ensures forall k :: 0 <= k < SelectorLength ==> m[k] == LowerChar(tx.input.value[k])
    ensures forall k :: 0 <= k < |m| ==> !IsUpper(m[k])
  {
    Lower(tx.input.value[..SelectorLength])
  }

  /** The truthiness test on a positive big-integer value. */
  predicate SendsValue(tx: TxDetail) {
    tx.value.Some? && tx.value.value > 0
  }

  /** The truthiness test on the destination address: present and non-empty. */
  predicate HasDestination(tx: TxDetail) {
    tx.to.Some? && tx.to.value != ""
  }

  predicate Unlisted(m: string) {
    m !in SellSelectors && m !in BuySelectors && m !in GenericSwapSelectors
  }

  /** The classifier: length guard, sell table, buy table, generic-swap table
      decided by value, value-and-destination fallback, then neutral. A lookup
      that found nothing or threw is neutral. */
  function Classify(l: Lookup): (r: Tag)
    ensures !l.Found? || !HasSelector(l.tx) ==> r == Neutral
    ensures r == Buy ==> l.Found? && HasSelector(l.tx)
                         && (Selector(l.tx) in BuySelectors || Selector(l.tx) in GenericSwapSelectors)
    ensures r == Neutral && l.Found? && HasSelector(l.tx) ==> Unlisted(Selector(l.tx))
  {
    match l
    case NotFound => Neutral
    case Failed => Neutral
    case Found(tx) =>
      if !HasSelector(tx) then Neutral
      else
        var m := Selector(tx);
        if m in SellSelectors then Sell
        else if m in BuySelectors then Buy
        else if m in GenericSwapSelectors then (if SendsValue(tx) then Sell else Buy)
        else if SendsValue(tx) && HasDestination(tx) then Sell
        else Neutral
  }

  /** Reference ordering used to show the table order is immaterial: the buy
      table is consulted before the sell table. */
  function ClassifyBuyFirst(l: Lookup): Tag {
    match l
    case NotFound => Neutral
    case Failed => Neutral
    case Found(tx) =>
      if !HasSelector(tx) then Neutral
      else
        var m := Selector(tx);
        if m in BuySelectors then Buy
        else if m in SellSelectors then Sell
        else if m in GenericSwapSelectors then (if SendsValue(tx) then Sell else Buy)
        else if SendsValue(tx) && HasDestination(tx) then Sell
        else Neutral
  }

  /** Every lookup outcome without usable calldata is neutral: nothing found,
      a lookup that threw, missing or empty calldata, or calldata of at most
      ten characters (so a bare selector as well). */
  lemma NoSelectorIsNeutral(l: Lookup)
    requires l.NotFound? || l.Failed? || l.tx.input.None? || |l.tx.input.value| <= SelectorLength
    ensures Classify(l) == Neutral
  {
  }

  /** A selector on the sell list is a sell whatever the value and destination. */
  lemma SellTableWins(tx: TxDetail, value: Option<nat>, to: Option<string>)
    requires HasSelector(tx) && Selector(tx) in SellSelectors
    ensures Classify(Found(tx.(value := value, to := to))) == Sell
  {
  }

  /** A selector on the buy list is a buy whatever the value and destination. */
  lemma BuyTableWins(tx: TxDetail, value: Option<nat>, to: Option<string>)
    requires HasSelector(tx) && Selector(tx) in BuySelectors
    ensures Classify(Found(tx.(value := value, to := to))) == Buy
  {
    TablesDisjoint();
  }

  /** A generic swap is a sell exactly when it carries value, and a buy otherwise. */
  lemma GenericSwapFollowsValue(tx: TxDetail)
    requires HasSelector(tx) && Selector(tx) in GenericSwapSelectors
    ensures Classify(Found(tx)) == Sell <==> SendsValue(tx)
    ensures Classify(Found(tx)) == Buy <==> !SendsValue(tx)
    ensures Classify(Found(tx)) != Neutral
  {
    TablesDisjoint();
  }

  /** An unlisted selector is a sell exactly when value goes to a destination,
      and is never a buy. */
  lemma UnlistedFollowsFallback(tx: TxDetail)
    requires HasSelector(tx) && Unlisted(Selector(tx))
    ensures Classify(Found(tx)) == Sell <==> SendsValue(tx) && HasDestination(tx)
    ensures Classify(Found(tx)) == Neutral <==> !(SendsValue(tx) && HasDestination(tx))
  {
  }

  /** No selector is on two lists. */
  lemma TablesDisjoint()
    ensures forall m :: m in SellSelectors ==> m !in BuySelectors && m !in GenericSwapSelectors
    ensures forall m :: m in BuySelectors ==> m !in GenericSwapSelectors
  {
  }

  /** Consulting the buy list before the sell list gives the same answer. */
  lemma CheckOrderImmaterial(l: Lookup)
    ensures Classify(l) == ClassifyBuyFirst(l)
  {
    TablesDisjoint();
  }

  /** Lower-casing commutes with taking a prefix and is idempotent. */
  lemma LowerPrefix(s: string, n: nat)
    requires n <= |s|
    ensures Lower(s)[..n] == Lower(s[..n])
    ensures Lower(Lower(s)) == Lower(s)
  {
  }

  /** Two calldata strings that agree up to letter case classify alike. */
  lemma CaseInsensitive(tx: TxDetail, other: string)
    requires tx.input.Some? && Lower(other) == Lower(tx.input.value)
    ensures Classify(Found(tx.(input := Some(other)))) == Classify(Found(tx))
  {
    var tx' := tx.(input := Some(other));
    if HasSelector(tx) {
      LowerPrefix(other, SelectorLength);
      LowerPrefix(tx.input.value, SelectorLength);
      assert Selector(tx') == Selector(tx);
    }
  }

  /** A native-for-token swap is a sell and a token-for-native swap is a buy;
      an upper-case selector is recognised alike. */
  lemma DirectSwapScenarios()
    ensures Classify(Found(TxDetail(Some("0x7ff36ab50000"), Some(0), None))) == Sell
    ensures Classify(Found(TxDetail(Some("0x18cbafe50000"), Some(5), Some("0xab")))) == Buy
    ensures Classify(Found(TxDetail(Some("0X7FF36AB50000"), None, None))) == Sell
  {
    assert Selector(TxDetail(Some("0x7ff36ab50000"), Some(0), None)) == "0x7ff36ab5";
    assert Selector(TxDetail(Some("0x18cbafe50000"), Some(5), Some("0xab"))) == "0x18cbafe5";
    assert Selector(TxDetail(Some("0X7FF36AB50000"), None, None)) == "0x7ff36ab5";
  }

  /** A generic swap without value is a buy and with value a sell. */
  lemma GenericSwapScenarios()
    ensures Classify(Found(TxDetail(Some("0x38ed17390000"), Some(0), Some("0xab")))) == Buy
    ensures Classify(Found(TxDetail(Some("0x38ed17390000"), Some(1), Some("0xab")))) == Sell
  {
    assert Selector(TxDetail(Some("0x38ed17390000"), Some(0), Some("0xab"))) == "0x38ed1739";
    assert Selector(TxDetail(Some("0x38ed17390000"), Some(1), Some("0xab"))) == "0x38ed1739";
  }

  /** An unlisted call with value is a sell only when it has a destination;
      calldata that is only a selector is neutral even with value and a
      destination; a failed lookup is neutral. */
  lemma FallbackScenarios()
    ensures Classify(Found(TxDetail(Some("0xd0e30db00000"), Some(1), Some("0xab")))) == Sell
    ensures Classify(Found(TxDetail(Some("0xd0e30db00000"), Some(1), Some("")))) == Neutral
    ensures Classify(Found(TxDetail(Some("0x7ff36ab5"), Some(1), Some("0xab")))) == Neutral
    ensures Classify(Failed) == Neutral
  {
    assert Selector(TxDetail(Some("0xd0e30db00000"), Some(1), Some("0xab"))) == "0xd0e30db0";
    assert Selector(TxDetail(Some("0xd0e30db00000"), Some(1), Some(""))) == "0xd0e30db0";
    assert Unlisted("0xd0e30db0");
  }

  /** The classification of every lookup result of a batch, in batch order. */
  function ClassifyAll(ls: seq<Lookup>): (tags: seq<Tag>)
    ensures |tags| == |ls|
  {
    if ls == [] then [] else [Classify(ls[0])] + ClassifyAll(ls[1..])
  }

  lemma {:induction false} ClassifyAllAt(ls: seq<Lookup>, k: nat)
    requires k < |ls|
    ensures ClassifyAll(ls)[k] == Classify(ls[k])
  {
    if k > 0 {
      ClassifyAllAt(ls[1..], k - 1);
    }
  }

  lemma {:induction false} ClassifyAllConcat(a: seq<Lookup>, b: seq<Lookup>)
    ensures ClassifyAll(a + b) == ClassifyAll(a) + ClassifyAll(b)
  {
    if a == [] {
      assert a + b == b;
    } else {
      assert (a + b)[0] == a[0];
      assert (a + b)[1..] == a[1..] + b;
      ClassifyAllConcat(a[1..], b);
    }
  }

  datatype Counts = Counts(buys: nat, sells: nat)

  /** The buy and sell increments of a batch; neutral results add to neither. */
  function Tally(tags: seq<Tag>): (c: Counts)
    ensures c.buys + c.sells <= |tags|
  {
    if tags == [] then Counts(0, 0)
    else
      var rest := Tally(tags[1..]);
      match tags[0]
      case Buy => Counts(rest.buys + 1, rest.sells)
      case Sell => Counts(rest.buys, rest.sells + 1)
      case Neutral => rest
  }

  /** The tally counts exactly the buy and sell results; the rest are neutral. */
  lemma {:induction false} TallyCountsTags(tags: seq<Tag>)
    ensures Tally(tags).buys == multiset(tags)[Buy]
    ensures Tally(tags).sells == multiset(tags)[Sell]
    ensures |tags| - Tally(tags).buys - Tally(tags).sells == multiset(tags)[Neutral]
  {
    if tags != [] {
      assert tags == [tags[0]] + tags[1..];
      TallyCountsTags(tags[1..]);
    }
  }

  /** The buy and sell increments of a batch of lookups: the number of lookups
      classified `buy` and the number classified `sell`. */
  function BatchCounts(ls: seq<Lookup>): (k: Counts)
    ensures k.buys == multiset(ClassifyAll(ls))[Buy]
    ensures k.sells == multiset(ClassifyAll(ls))[Sell]
    ensures k.buys + k.sells <= |ls|
  {
    var tags := ClassifyAll(ls);
    TallyCountsTags(tags);
    Tally(tags)
  }

  /** The counts of consecutive stretches of results add up. */
  lemma {:induction false} TallyAdd(a: seq<Tag>, b: seq<Tag>)
    ensures Tally(a + b).buys == Tally(a).buys + Tally(b).buys
    ensures Tally(a + b).sells == Tally(a).sells + Tally(b).sells
  {
    if a == [] {
      assert a + b == b;
    } else {
      assert (a + b)[0] == a[0];
      assert (a + b)[1..] == a[1..] + b;
      TallyAdd(a[1..], b);
    }
  }
}
