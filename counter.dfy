/**
 * The escalation counter of the moderation bot: a map from user id to the
 * number of approved reprimands not yet remediated or appealed, clamped to
 * [0, MaxLevel].  Missing users read as 0.
 */
module Counter {

  /** Discord user ids (snowflakes, held as strings). */
  type UserId = string

  /** The highest escalation level; a reprimand at this level grants no remediation. */
  const MaxLevel: int := 3

  /**
   * The key a count is written under when a form handle is not tracked: the
   * JavaScript lookup yields `undefined`, which the counts file persists as
   * this string.  No Discord snowflake equals it.  In memory the source keeps
   * `undefined` and the string "undefined" apart; they only merge once saved
   * and loaded again, and the model merges them from the start.
   */
  const Undefined: UserId := "undefined"

  /** Every stored count lies in [0, MaxLevel]. */
  predicate InRange(counts: map<UserId, int>)
  {
    forall u :: u in counts ==> 0 <= counts[u] <= MaxLevel
  }

  /** `userReprimandCounts.get(u) || 0`: the stored count, or 0 for an unseen user. */
  function CountOf(counts: map<UserId, int>, u: UserId): (c: int)
    ensures u in counts ==> c == counts[u]
    ensures u !in counts ==> c == 0
    ensures InRange(counts) ==> 0 <= c <= MaxLevel
  {
    if u in counts then counts[u] else 0
  }

  /** The count after an approved reprimand: one more, but never above MaxLevel. */
  function Escalate(prev: int): (next: int)
    ensures next <= MaxLevel
    ensures prev < MaxLevel ==> next == prev + 1
    ensures prev >= MaxLevel ==> next == MaxLevel
  {
    if prev + 1 < MaxLevel then prev + 1 else MaxLevel
  }

  /** The count after an approved appeal: one less, but never below 0. */
  function Relieve(prev: int): (next: int)
    ensures 0 <= next
    ensures prev > 0 ==> next == prev - 1
    ensures prev <= 0 ==> next == 0
  {
    if prev - 1 > 0 then prev - 1 else 0
  }

  /** Every value in a list of saved (user, count) entries lies in [0, MaxLevel]. */
  predicate EntriesInRange(saved: seq<(UserId, int)>)
  {
    forall i :: 0 <= i < |saved| ==> 0 <= saved[i].1 <= MaxLevel
  }

  /**
   * The count map obtained by setting the saved entries one after another,
   * as the start-up load does; a later entry for the same user wins.
   */
  function FromEntries(saved: seq<(UserId, int)>): (m: map<UserId, int>)
    ensures forall u :: u in m <==> exists i :: 0 <= i < |saved| && saved[i].0 == u
    ensures EntriesInRange(saved) ==> InRange(m)
    decreases |saved|
  {
    if saved == [] then map[]
    else
      var last := saved[|saved| - 1];
      FromEntries(saved[..|saved| - 1])[last.0 := last.1]
  }

  /** The entry that comes last for a user decides that user's loaded count. */
  lemma {:induction false} LastEntryWins(saved: seq<(UserId, int)>, i: nat)
    requires i < |saved|
    requires forall j :: i < j < |saved| ==> saved[j].0 != saved[i].0
    ensures saved[i].0 in FromEntries(saved) && FromEntries(saved)[saved[i].0] == saved[i].1
    decreases |saved|
  {
    if i < |saved| - 1 {
      var init := saved[..|saved| - 1];
      assert init[i] == saved[i];
      forall j | i < j < |init| ensures init[j].0 != init[i].0 {
        assert init[j] == saved[j];
      }
      LastEntryWins(init, i);
    }
  }
}
