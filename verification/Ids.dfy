/** Row identifiers and the order in which Go compares strings. */
module Ids {

  type BossId = string
  type PlayerId = string

  /** Primary key of `contributions` and of `reward_claims`. */
  datatype Key = Key(boss: BossId, player: PlayerId)

  datatype Option<+T> = None | Some(value: T)

  /** The `<` of two Go strings: first differing character, a proper prefix first. */
  predicate Before(a: string, b: string) {
    && b != []
    && (a == [] || a[0] < b[0] || (a[0] == b[0] && Before(a[1..], b[1..])))
  }

  /** Boss first, then player (the comparison closure of `CommitBatch`). */
  predicate KeyBefore(a: Key, b: Key) {
    if a.boss != b.boss then Before(a.boss, b.boss) else Before(a.player, b.player)
  }

  lemma {:induction false} BeforeIrreflexive(a: string)
    ensures !Before(a, a)
  {
    if a != [] { BeforeIrreflexive(a[1..]); }
  }

  lemma {:induction false} BeforeTransitive(a: string, b: string, c: string)
    requires Before(a, b) && Before(b, c)
    ensures Before(a, c)
  {
    if a != [] && a[0] == b[0] && b[0] == c[0] { BeforeTransitive(a[1..], b[1..], c[1..]); }
  }

  lemma {:induction false} BeforeTotal(a: string, b: string)
    ensures a == b || Before(a, b) || Before(b, a)
  {
    if a != [] && b != [] && a[0] == b[0] {
      BeforeTotal(a[1..], b[1..]);
      assert a == [a[0]] + a[1..] && b == [b[0]] + b[1..];
    }
  }

  lemma KeyBeforeIrreflexive(a: Key)
    ensures !KeyBefore(a, a)
  {
    BeforeIrreflexive(a.player);
  }

  lemma KeyBeforeTransitive(a: Key, b: Key, c: Key)
    requires KeyBefore(a, b) && KeyBefore(b, c)
    ensures KeyBefore(a, c)
  {
    if a.boss == b.boss == c.boss {
      BeforeTransitive(a.player, b.player, c.player);
    } else if a.boss != b.boss && b.boss != c.boss {
      BeforeTransitive(a.boss, b.boss, c.boss);
      if a.boss == c.boss { BeforeIrreflexive(a.boss); }
    }
  }

  lemma KeyBeforeTotal(a: Key, b: Key)
    ensures a == b || KeyBefore(a, b) || KeyBefore(b, a)
  {
    BeforeTotal(a.boss, b.boss);
    BeforeTotal(a.player, b.player);
  }
}
