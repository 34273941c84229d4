/** The transaction table: which transactions it shows, and what its counterparty column says. */
module TransactionsListView {
  import opened Wrappers
  import opened Models
  import Seqs
  import TransactionActions

  const NoTransactions := "No transactions found"

  function IsActive(t: Transaction): bool
  {
    t.status == Active
  }

  /** The list after the filter: with "escrow" only the active transactions, otherwise all. */
  function Filtered(ts: seq<Transaction>, filter: Option<string>): (r: seq<Transaction>)
    ensures filter != Some("escrow") ==> r == ts
    ensures forall t :: t in r <==> t in ts && (filter == Some("escrow") ==> t.status == Active)
  {
    if filter == Some("escrow") then Seqs.Filter(ts, IsActive) else ts
  }

  /** JavaScript's `slice(0, end)`: a prefix of `s`, `end` elements long when `end` is not
      negative, and all but the last `-end` elements when it is; never more than all of `s`. */
  function SliceFromStart(s: seq<Transaction>, end: int): (r: seq<Transaction>)
    ensures |r| <= |s| && r == s[..|r|]
    ensures end >= 0 ==> |r| == if end < |s| then end else |s|
    ensures end < 0 ==> |r| == if |s| + end > 0 then |s| + end else 0
  {
    if end >= 0 then Seqs.Take(s, end)
    else if |s| + end > 0 then s[..|s| + end] else []
  }

  /** The rows the table shows: the filtered list, cut to `limit` when a non-zero limit is given. */
  function Visible(ts: seq<Transaction>, filter: Option<string>, limit: Option<int>): (r: seq<Transaction>)
    ensures |r| <= |Filtered(ts, filter)| && r == Filtered(ts, filter)[..|r|]
    ensures filter == Some("escrow") ==> forall t :: t in r ==> t.status == Active
    ensures limit.None? || limit == Some(0) ==> r == Filtered(ts, filter)
    ensures limit.Some? && limit.value > 0 ==> |r| <= limit.value
    ensures limit.Some? && limit.value > 0 ==>
              |r| == if limit.value < |Filtered(ts, filter)| then limit.value else |Filtered(ts, filter)|
    ensures limit.Some? && limit.value < 0 ==>
              |r| == if |Filtered(ts, filter)| + limit.value > 0 then |Filtered(ts, filter)| + limit.value else 0
  {
    var f := Filtered(ts, filter);
    if limit.None? || limit.value == 0 then f else SliceFromStart(f, limit.value)
  }

  /** Without a negative limit, the "No transactions found" row appears exactly when nothing
      passes the filter: no active transaction under "escrow", no transaction at all otherwise. */
  lemma EmptyNoticeIff(ts: seq<Transaction>, filter: Option<string>, limit: Option<int>)
    requires limit.None? || limit.value >= 0
    ensures |Visible(ts, filter, limit)| == 0 <==>
              if filter == Some("escrow") then forall t :: t in ts ==> t.status != Active else ts == []
  {
    var f := Filtered(ts, filter);
    if f != [] {
      assert f[0] in f;
    }
  }

  /** What the table shows instead of rows when there are none. */
  function EmptyNotice(ts: seq<Transaction>, filter: Option<string>, limit: Option<int>): (r: Option<string>)
    ensures r.Some? <==> Visible(ts, filter, limit) == []
    ensures r.Some? ==> r.value == NoTransactions
  {
    if Visible(ts, filter, limit) == [] then Some(NoTransactions) else None
  }

  /** The escrow query already returns only active funded transactions, so the table's own
      escrow filter keeps every one of them, in the same order. */
  lemma EscrowFilterKeepsEscrowQuery(txs: seq<Transaction>, caller: Models.Session)
    ensures var r := TransactionActions.GetTransactions(txs, Some(caller), "escrow");
            r.Ok? && Visible(r.value, Some("escrow"), None) == r.value
  {
    var r := TransactionActions.GetTransactions(txs, Some(caller), "escrow").value;
    Seqs.FilterAll(r, IsActive);
  }

  /** The counterparty column as written: "System" when buyer and seller are the same user,
      otherwise the seller, by email when the two parties share a name and else by name. */
  function CounterpartyLabel(t: Transaction): (r: string)
    ensures t.buyer.userId == t.seller.userId ==> r == "System"
    ensures t.buyer.userId != t.seller.userId ==> r == t.seller.name || r == t.seller.email
  {
    if t.buyer.userId == t.seller.userId then "System"
    else if t.buyer.name == t.seller.name then t.seller.email
    else t.seller.name
  }

  /** The seller of a transaction finds its own name in the counterparty column, where the
      viewer-aware label shows the buyer. */
  lemma SellerSeesOwnName()
    ensures var t := Transaction("Lamp", "Desk lamp", 20.0, "USD", Pending, Party(1, "ann@x", "Ann"),
                                 Party(2, "bob@x", "Bob"), false, PaymentMethod(Card, ""), None, 0, 0, None, []);
            CounterpartyLabel(t) == "Bob" && CounterpartyLabelFor(t, 2) == "Ann"
  {
  }

  /** The counterparty column for viewer `viewer`: "System" when buyer and seller are the same
      user, otherwise the party the viewer is not, by email when the two parties share a name. */
  function CounterpartyLabelFor(t: Transaction, viewer: UserId): (r: string)
    ensures t.buyer.userId == t.seller.userId ==> r == "System"
    ensures t.buyer.userId != t.seller.userId ==>
              var other := if viewer == t.buyer.userId then t.seller else t.buyer;
              other.userId != viewer && (r == other.name || r == other.email)
    ensures t.buyer.userId != t.seller.userId && t.buyer.name != t.seller.name ==>
              r != (if viewer == t.buyer.userId then t.buyer.name else t.seller.name)
  {
    if t.buyer.userId == t.seller.userId then "System"
    else
      var other := if viewer == t.buyer.userId then t.seller else t.buyer;
      if t.buyer.name == t.seller.name then other.email else other.name
  }
}
