/** Why a compare-and-swap at the revision just read is never answered from the replay table. */
module Replays {
  import opened Model
  import opened Store
  import Runs

  /** Every recorded update of a row that still exists was made at an earlier revision. */
  ghost predicate ReplaysBehind(s: State) {
    forall sc :: sc in s.replays && sc.key in s.rows ==> BehindAt(s, sc)
  }

  predicate BehindAt(s: State, sc: Scope)
    requires sc in s.replays && sc.key in s.rows
  {
    sc.verb == Updating && s.replays[sc].request.UpdateRequest? ==>
      s.replays[sc].request.expected < s.rows[sc.key].meta.revision
  }

  /** IDs are not reused: the call creates no row that has update records. */
  ghost predicate NewId(s: State, c: Call) {
    c.DoCreate? ==> forall sc :: sc in s.replays && sc.verb == Updating ==> sc.key != CreateKey(c.sub, c.freshId)
  }

  /** The replay records after a call: the old ones, and the one the call itself leaves. */
  lemma RecordsAfter(r: Rules, s: State, c: Call, sc: Scope)
    requires sc in Apply(r, s, c).replays && sc.verb == Updating
    ensures || (sc in s.replays && Apply(r, s, c).replays[sc] == s.replays[sc])
            || (&& c.DoUpdate? && sc == UpdateScope(c.sub, c.token)
                && Apply(r, s, c).replays[sc].request == UpdateRequest(c.sub, c.expected)
                && sc.key in Apply(r, s, c).rows && Apply(r, s, c).rows[sc.key].meta.revision == c.expected + 1)
  {
  }

  /** A row that appears is the one a create stores. */
  lemma RowsAppear(r: Rules, s: State, c: Call, k: Key)
    requires k in Apply(r, s, c).rows && k !in s.rows
    ensures c.DoCreate? && k == CreateKey(c.sub, c.freshId)
  {
  }

  lemma CallKeepsReplaysBehind(r: Rules, s: State, c: Call)
    requires ReplaysBehind(s) && NewId(s, c)
    ensures ReplaysBehind(Apply(r, s, c))
  {
    var after := Apply(r, s, c);
    forall sc | sc in after.replays && sc.key in after.rows ensures BehindAt(after, sc) {
      if sc.verb == Updating {
        RecordsAfter(r, s, c, sc);
        if sc in s.replays && after.replays[sc] == s.replays[sc] {
          if sc.key !in s.rows {
            RowsAppear(r, s, c, sc.key);
          } else {
            Runs.RevisionsAdvance(r, s, c, sc.key);
            assert BehindAt(s, sc);
          }
        }
      }
    }
  }

  /** Main result: with IDs that are not reused, an update at the revision the caller has just read
      either stores exactly the submitted row as the next revision or changes nothing; it is never
      answered from the replay table. */
  lemma UpdateIsCompareAndSwap(r: Rules, s: State, sub: Submission, token: string, now: int)
    requires ReplaysBehind(s) && Key(KindOf(sub.body), sub.id) in s.rows
    ensures var key := Key(KindOf(sub.body), sub.id);
            var (after, result) := Update(r, s, sub, s.rows[key].meta.revision, token, now);
            && ReplaysBehind(after)
            && (result.Ok? ==> after.rows == s.rows[key := UpdatedRow(s.rows[key], sub, now)]
                               && result == Ok(key, UpdatedRow(s.rows[key], sub, now), false))
            && (result.Err? ==> after == s)
  {
    var key := Key(KindOf(sub.body), sub.id);
    var expected := s.rows[key].meta.revision;
    var sc := UpdateScope(sub, token);
    assert sc in s.replays ==> BehindAt(s, sc);
    CallKeepsReplaysBehind(r, s, DoUpdate(sub, expected, token, now));
  }
}
