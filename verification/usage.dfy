/** The persisted usage counter: one `User` row per user id with a
    `messages` column. */
module Usage {

  /** The `User` table, reduced to id and message count. */
  type Counts = map<string, nat>

  /** A user without a row, or with an empty `messages` column, counts 0. */
  function Count(counts: Counts, uid: string): (n: nat)
    ensures uid !in counts ==> n == 0
    ensures uid in counts ==> n == counts[uid]
  {
    if uid in counts then counts[uid] else 0
  }

  /** `log_conversation`: loads or creates the user's row and adds one to
      its counter; no other row changes. */
  function LogConversation(counts: Counts, uid: string): (r: Counts)
    ensures r.Keys == counts.Keys + {uid}
    ensures Count(r, uid) == Count(counts, uid) + 1
    ensures forall u :: u != uid ==> Count(r, u) == Count(counts, u)
  {
    counts[uid := Count(counts, uid) + 1]
  }

  /** The sum of every row's `messages` column. */
  ghost function Total(counts: Counts): (sum: nat)
    ensures counts == map[] ==> sum == 0
    ensures forall u :: u in counts ==> counts[u] <= sum
    decreases |counts|
  {
    if counts == map[] then 0
    else
      var k :| k in counts;
      var rest := counts - {k};
      assert forall u :: u in counts && u != k ==> u in rest && rest[u] == counts[u];
      counts[k] + Total(rest)
  }

  /** The sum can be split at any row, not only at the one `Total` picks. */
  lemma {:induction false} TotalSplit(counts: Counts, uid: string)
    requires uid in counts
    ensures Total(counts) == counts[uid] + Total(counts - {uid})
    decreases |counts|
  {
    var u :| u in counts && Total(counts) == counts[u] + Total(counts - {u});
    if u != uid {
      assert counts - {u} - {uid} == counts - {uid} - {u};
      TotalSplit(counts - {u}, uid);
      TotalSplit(counts - {uid}, u);
    }
  }

  /** Every logged message adds exactly one to the total. */
  lemma LogConversationAddsOne(counts: Counts, uid: string)
    ensures Total(LogConversation(counts, uid)) == Total(counts) + 1
  {
    var r := LogConversation(counts, uid);
    TotalSplit(r, uid);
    assert r - {uid} == counts - {uid};
    if uid in counts {
      TotalSplit(counts, uid);
    } else {
      assert counts - {uid} == counts;
    }
  }
}
