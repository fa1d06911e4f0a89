/** The wallet screen of `app/wallet.tsx`: the coin balance with the
    transaction history shown beside it, the three ways the screen credits
    coins, the history filters and the labels of one history row. The clock
    is the parameter `nowMs` (milliseconds since the epoch). */
module Wallet {
  import opened Wrappers
  import Strings
  import Seqs

  const MsPerHour: int := 1000 * 60 * 60
  const MsPerDay: int := 24 * MsPerHour

  /** Coins credited for one advertisement and for rating the app. */
  const AdCoins: int := 9
  const RateAppCoins: int := 50

  datatype TxType = Earned | Spent | Purchased | Refund
  datatype TxStatus = Completed | Pending | Failed

  datatype Transaction = Transaction(
    id: string, kind: TxType, amount: int, description: string, timestamp: int,
    episodeTitle: Option<string>, videoTitle: Option<string>, paidWith: Option<string>,
    status: TxStatus)

  datatype SubscriptionStatus = Active | Inactive | Expired
  datatype Level = Bronze | Silver | Gold | Platinum

  datatype UserWallet = UserWallet(
    balance: int, totalEarned: int, totalSpent: int,
    subscriptionStatus: SubscriptionStatus, subscriptionExpiry: Option<int>,
    level: Level, pointsToNextLevel: int)

  /** A pack offered in the top-up sheet (its price only appears in the
      confirmation text). */
  datatype TopUpPack = TopUpPack(id: int, coins: int)

  /** The wallet screen's own four packs. */
  const TopUpPacks: seq<TopUpPack> :=
    [TopUpPack(1, 100), TopUpPack(2, 500), TopUpPack(3, 1000), TopUpPack(4, 3000)]

  /** The string the source stores in `type`. */
  function TypeName(t: TxType): string {
    match t
    case Earned => "earned"
    case Spent => "spent"
    case Purchased => "purchased"
    case Refund => "refund"
  }

  /** The transaction recorded for a watched advertisement. */
  function AdTransaction(nowMs: int): Transaction {
    Transaction(Strings.IntToString(nowMs), Earned, AdCoins, "Watched advertisement", nowMs,
                None, None, None, Completed)
  }

  /** The transaction recorded for a bought coin pack. */
  function PurchaseTransaction(pack: TopUpPack, nowMs: int): Transaction {
    Transaction(Strings.IntToString(nowMs), Purchased, pack.coins,
                Strings.IntToString(pack.coins) + " Coins Pack", nowMs,
                None, None, Some("Credit Card"), Completed)
  }

  function Amount(t: Transaction): int {
    t.amount
  }

  // ---------------------------------------------------------------------------
  // History filters

  /** The type chips; there is no chip for refunds. */
  datatype TypeFilter = AllTypes | OnlyEarned | OnlySpent | OnlyPurchased

  /** The period chips. */
  datatype TimeFilter = AllTime | Today | Week | Month

  predicate MatchesType(f: TypeFilter, t: TxType) {
    match f
    case AllTypes => true
    case OnlyEarned => t == Earned
    case OnlySpent => t == Spent
    case OnlyPurchased => t == Purchased
  }

  /** The earliest timestamp a period keeps: local midnight for `today`
      (`utcOffsetMs` is the device's offset from UTC), 7 or 30 days before now
      for `week` and `month`. */
  function Cutoff(f: TimeFilter, nowMs: int, utcOffsetMs: int): (c: int)
    requires f != AllTime
    ensures c <= nowMs
    ensures f == Today ==> nowMs - c < MsPerDay && (c + utcOffsetMs) % MsPerDay == 0
  {
    match f
    case Today => nowMs - (nowMs + utcOffsetMs) % MsPerDay
    case Week => nowMs - 7 * MsPerDay
    case Month => nowMs - 30 * MsPerDay
  }

  /** Whether a transaction passes both chips. */
  predicate Shown(t: Transaction, typeFilter: TypeFilter, timeFilter: TimeFilter, nowMs: int, utcOffsetMs: int) {
    MatchesType(typeFilter, t.kind) &&
    (timeFilter == AllTime || t.timestamp >= Cutoff(timeFilter, nowMs, utcOffsetMs))
  }

  /** The tests the two chips apply to one transaction. */
  function TypeTest(typeFilter: TypeFilter): Transaction -> bool {
    (t: Transaction) => MatchesType(typeFilter, t.kind)
  }

  function TimeTest(timeFilter: TimeFilter, nowMs: int, utcOffsetMs: int): Transaction -> bool
    requires timeFilter != AllTime
  {
    var cutoff := Cutoff(timeFilter, nowMs, utcOffsetMs);
    (t: Transaction) => t.timestamp >= cutoff
  }

  function ShownTest(typeFilter: TypeFilter, timeFilter: TimeFilter, nowMs: int, utcOffsetMs: int): Transaction -> bool {
    (t: Transaction) => Shown(t, typeFilter, timeFilter, nowMs, utcOffsetMs)
  }

  /** The first step of `getFilteredTransactions`: the type chip. */
  function ByType(txs: seq<Transaction>, typeFilter: TypeFilter): seq<Transaction> {
    if typeFilter == AllTypes then txs else Seqs.Filter(txs, TypeTest(typeFilter))
  }

  /** The second step of `getFilteredTransactions`: the period chip. */
  function ByTime(txs: seq<Transaction>, timeFilter: TimeFilter, nowMs: int, utcOffsetMs: int): seq<Transaction> {
    if timeFilter == AllTime then txs else Seqs.Filter(txs, TimeTest(timeFilter, nowMs, utcOffsetMs))
  }

  /** `getFilteredTransactions`: the history in its own order, keeping exactly
      the transactions of the chosen type (any type for `all`) made at or after
      the period's cutoff (any time for `all`). */
  function FilteredTransactions(txs: seq<Transaction>, typeFilter: TypeFilter, timeFilter: TimeFilter,
                                nowMs: int, utcOffsetMs: int): (r: seq<Transaction>)
    ensures Seqs.IsSubsequence(r, txs)
    ensures forall t :: t in r <==> t in txs && Shown(t, typeFilter, timeFilter, nowMs, utcOffsetMs)
    ensures forall i :: 0 <= i < |r| ==> MatchesType(typeFilter, r[i].kind)
    ensures timeFilter != AllTime ==>
      forall i :: 0 <= i < |r| ==> r[i].timestamp >= Cutoff(timeFilter, nowMs, utcOffsetMs)
    ensures typeFilter == AllTypes && timeFilter == AllTime ==> r == txs
  {
    var r := ByTime(ByType(txs, typeFilter), timeFilter, nowMs, utcOffsetMs);
    FilteredIsOneFilter(txs, typeFilter, timeFilter, nowMs, utcOffsetMs);
    assert forall i :: 0 <= i < |r| ==> ShownTest(typeFilter, timeFilter, nowMs, utcOffsetMs)(r[i]);
    r
  }

  /** The two filters the screen applies in a row are one filter by `Shown`. */
  lemma FilteredIsOneFilter(txs: seq<Transaction>, typeFilter: TypeFilter, timeFilter: TimeFilter,
                            nowMs: int, utcOffsetMs: int)
    ensures ByTime(ByType(txs, typeFilter), timeFilter, nowMs, utcOffsetMs)
            == Seqs.Filter(txs, ShownTest(typeFilter, timeFilter, nowMs, utcOffsetMs))
  {
    if timeFilter == AllTime {
      if typeFilter == AllTypes {
        NoChips(txs, nowMs, utcOffsetMs);
      } else {
        TypeChipOnly(txs, typeFilter, nowMs, utcOffsetMs);
      }
    } else if typeFilter == AllTypes {
      TimeChipOnly(txs, timeFilter, nowMs, utcOffsetMs);
    } else {
      BothChips(txs, typeFilter, timeFilter, nowMs, utcOffsetMs);
    }
  }

  lemma NoChips(txs: seq<Transaction>, nowMs: int, utcOffsetMs: int)
    ensures txs == Seqs.Filter(txs, ShownTest(AllTypes, AllTime, nowMs, utcOffsetMs))
  {
    Seqs.FilterAll(txs, ShownTest(AllTypes, AllTime, nowMs, utcOffsetMs));
  }

  lemma TypeChipOnly(txs: seq<Transaction>, typeFilter: TypeFilter, nowMs: int, utcOffsetMs: int)
    ensures Seqs.Filter(txs, TypeTest(typeFilter)) == Seqs.Filter(txs, ShownTest(typeFilter, AllTime, nowMs, utcOffsetMs))
  {
    Seqs.FilterExtensional(txs, TypeTest(typeFilter), ShownTest(typeFilter, AllTime, nowMs, utcOffsetMs));
  }

  lemma TimeChipOnly(txs: seq<Transaction>, timeFilter: TimeFilter, nowMs: int, utcOffsetMs: int)
    requires timeFilter != AllTime
    ensures Seqs.Filter(txs, TimeTest(timeFilter, nowMs, utcOffsetMs))
            == Seqs.Filter(txs, ShownTest(AllTypes, timeFilter, nowMs, utcOffsetMs))
  {
    Seqs.FilterExtensional(txs, TimeTest(timeFilter, nowMs, utcOffsetMs), ShownTest(AllTypes, timeFilter, nowMs, utcOffsetMs));
  }

  lemma BothChips(txs: seq<Transaction>, typeFilter: TypeFilter, timeFilter: TimeFilter, nowMs: int, utcOffsetMs: int)
    requires timeFilter != AllTime
    ensures Seqs.Filter(Seqs.Filter(txs, TypeTest(typeFilter)), TimeTest(timeFilter, nowMs, utcOffsetMs))
            == Seqs.Filter(txs, ShownTest(typeFilter, timeFilter, nowMs, utcOffsetMs))
  {
    var p := TypeTest(typeFilter);
    var q := TimeTest(timeFilter, nowMs, utcOffsetMs);
    Seqs.FilterFilter(txs, p, q, ShownTest(typeFilter, timeFilter, nowMs, utcOffsetMs));
  }

  // ---------------------------------------------------------------------------
  // One row of the history

  /** `formatDate`: whole hours since the transaction under a day, whole days
      under a week, the platform's date text (`localeDate`) beyond that. */
  function FormatDate(timestampMs: int, nowMs: int, localeDate: string): (r: string)
    ensures nowMs - timestampMs < MsPerHour ==> r == "Just now"
    ensures nowMs - timestampMs >= 7 * MsPerDay ==> r == localeDate
  {
    var diffHours := (nowMs - timestampMs) / MsPerHour;
    var diffDays := diffHours / 24;
    NestedFloor(nowMs - timestampMs);
    if diffHours < 1 then "Just now"
    else if diffHours < 24 then Strings.IntToString(diffHours) + "h ago"
    else if diffDays < 7 then Strings.IntToString(diffDays) + "d ago"
    else localeDate
  }

  /** What `formatDate` shows for each age, with both divisions rounded down:
      "Just now" under an hour (also for a time in the future), then 1 to 23
      hours, then 1 to 6 days, then the date. */
  lemma FormatDateBuckets(timestampMs: int, nowMs: int, localeDate: string)
    ensures var age := nowMs - timestampMs;
      && (age < MsPerHour ==> FormatDate(timestampMs, nowMs, localeDate) == "Just now")
      && (MsPerHour <= age < MsPerDay ==>
            1 <= age / MsPerHour <= 23 &&
            FormatDate(timestampMs, nowMs, localeDate) == Strings.IntToString(age / MsPerHour) + "h ago")
      && (MsPerDay <= age < 7 * MsPerDay ==>
            1 <= age / MsPerDay <= 6 &&
            FormatDate(timestampMs, nowMs, localeDate) == Strings.IntToString(age / MsPerDay) + "d ago")
      && (age >= 7 * MsPerDay ==> FormatDate(timestampMs, nowMs, localeDate) == localeDate)
  {
    NestedFloor(nowMs - timestampMs);
  }

  /** Whole days are whole hours divided by 24, both rounded down. */
  lemma NestedFloor(age: int)
    ensures (age / MsPerHour) / 24 == age / MsPerDay
  {
    var h := age / MsPerHour;
    assert age == (h / 24) * MsPerDay + ((h % 24) * MsPerHour + age % MsPerHour);
    assert 0 <= (h % 24) * MsPerHour + age % MsPerHour < MsPerDay;
  }

  /** The amount column: a plus sign exactly for positive amounts, negative
      amounts keep their minus sign. */
  function FormatAmount(amount: int): (r: string)
    ensures |r| >= 1
    ensures r[0] == '+' <==> amount > 0
    ensures amount > 0 ==> r[1..] == Strings.IntToString(amount)
    ensures amount <= 0 ==> r == Strings.IntToString(amount)
  {
    (if amount > 0 then "+" else "") + Strings.IntToString(amount)
  }

  /** `getTransactionIcon`: one icon per known type, a help icon otherwise. */
  function TransactionIcon(kind: string): (r: string)
    ensures r == "help-circle" <==> kind !in {"earned", "spent", "purchased", "refund"}
  {
    match kind
    case "earned" => "add-circle"
    case "spent" => "remove-circle"
    case "purchased" => "card"
    case "refund" => "refresh-circle"
    case _ => "help-circle"
  }

  /** `getTransactionColor`: one colour per known type, grey otherwise. */
  function TransactionColor(kind: string): (r: string)
    ensures r == "#999" <==> kind !in {"earned", "spent", "purchased", "refund"}
  {
    match kind
    case "earned" => "#4CAF50"
    case "spent" => "#FF6B35"
    case "purchased" => "#8B5CF6"
    case "refund" => "#2196F3"
    case _ => "#999"
  }

  /** The four transaction types get four different icons and colours. */
  lemma IconsAndColoursTellTypesApart(a: TxType, b: TxType)
    requires a != b
    ensures TransactionIcon(TypeName(a)) != TransactionIcon(TypeName(b))
    ensures TransactionColor(TypeName(a)) != TransactionColor(TypeName(b))
  {
  }

  // ---------------------------------------------------------------------------
  // The screen's state

  class WalletScreen {
    var wallet: UserWallet
    var transactions: seq<Transaction>
    var showTopUpModal: bool

    /** The part of the balance that no transaction on the list accounts for. */
    function Unrecorded(): int
      reads this
    {
      wallet.balance - Seqs.SumOf(transactions, Amount)
    }

    /** The screen's starting wallet and its seven mock transactions, dated
        relative to `nowMs`. */
    constructor (nowMs: int)
      ensures wallet == UserWallet(245, 1280, 1035, Active, Some(nowMs + 15 * MsPerDay), Silver, 150)
      ensures |transactions| == 7 && !showTopUpModal
      ensures forall i :: 0 <= i < |transactions| ==> transactions[i].timestamp < nowMs
    {
      wallet := UserWallet(245, 1280, 1035, Active, Some(nowMs + 15 * MsPerDay), Silver, 150);
      showTopUpModal := false;
      transactions := [
        Transaction("1", Earned, 50, "Daily check-in bonus (7-day streak)", nowMs - 2 * MsPerHour,
                    None, None, None, Completed),
        Transaction("2", Spent, -20, "Unlocked Episode 3", nowMs - 5 * MsPerHour,
                    Some("Episode 3: The Truth"), Some("REEL REVENGE"), None, Completed),
        Transaction("3", Earned, 9, "Watched advertisement", nowMs - 8 * MsPerHour,
                    None, None, None, Completed),
        Transaction("4", Purchased, 500, "500 Coins Pack", nowMs - 24 * MsPerHour,
                    None, None, Some("Google Pay"), Completed),
        Transaction("5", Spent, -15, "Unlocked Episode 4", nowMs - 2 * MsPerDay,
                    Some("Episode 4: Revelation"), Some("LOVER"), None, Completed),
        Transaction("6", Earned, 25, "Referral bonus - Friend joined", nowMs - 3 * MsPerDay,
                    None, None, None, Completed),
        Transaction("7", Refund, 20, "Refund for Episode 2", nowMs - 5 * MsPerDay,
                    Some("Episode 2: Betrayal"), Some("MYSTERY NIGHT"), None, Completed)
      ];
    }

    /** `watchAd` once the ad has run: nine coins on the balance and one
        completed `earned` transaction of 9 in front of the history; nothing
        else changes, and the list still accounts for the same share of the
        balance. */
    method WatchAd(nowMs: int)
      modifies this
      ensures wallet == old(wallet).(balance := old(wallet.balance) + AdCoins)
      ensures transactions == [AdTransaction(nowMs)] + old(transactions)
      ensures transactions[0].kind == Earned && transactions[0].amount == AdCoins
      ensures transactions[0].status == Completed && transactions[1..] == old(transactions)
      ensures showTopUpModal == old(showTopUpModal)
      ensures Unrecorded() == old(Unrecorded())
    {
      wallet := wallet.(balance := wallet.balance + AdCoins);
      transactions := [AdTransaction(nowMs)] + transactions;
    }

    /** `rateApp` once confirmed: fifty coins on the balance and no
        transaction, so the unrecorded share grows by 50. */
    method RateApp()
      modifies this
      ensures wallet == old(wallet).(balance := old(wallet.balance) + RateAppCoins)
      ensures transactions == old(transactions) && showTopUpModal == old(showTopUpModal)
      ensures Unrecorded() == old(Unrecorded()) + RateAppCoins
    {
      wallet := wallet.(balance := wallet.balance + RateAppCoins);
    }

    /** `handleTopUp` once confirmed: the pack's coins on the balance, one
        completed `purchased` transaction of that many coins in front of the
        history, and the top-up sheet closed. */
    method HandleTopUp(pack: TopUpPack, nowMs: int)
      modifies this
      ensures wallet == old(wallet).(balance := old(wallet.balance) + pack.coins)
      ensures transactions == [PurchaseTransaction(pack, nowMs)] + old(transactions)
      ensures transactions[0].kind == Purchased && transactions[0].amount == pack.coins
      ensures transactions[0].status == Completed && transactions[1..] == old(transactions)
      ensures !showTopUpModal
      ensures Unrecorded() == old(Unrecorded())
    {
      wallet := wallet.(balance := wallet.balance + pack.coins);
      transactions := [PurchaseTransaction(pack, nowMs)] + transactions;
      showTopUpModal := false;
    }
  }
}
