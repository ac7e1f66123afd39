/** What every stored port satisfies, in every reachable store: it is valid and its defaults are filled in. */
module StoredPorts {
  import opened Ports
  import opened Model
  import opened Store
  import opened StoreInvariants
  import opened Slots

  /** The API defaults of a port. */
  predicate Filled(p: Port) {
    p.status != Unset && p.generation != 0 && p.lspName != ""
  }

  ghost predicate PortsFilled(rows: Rows) {
    forall k :: k in rows && rows[k].body.PortBody? ==> Filled(rows[k].body.port)
  }

  lemma DefaultsFill(id: string, b: Body)
    requires id != "" && b.PortBody?
    ensures WithDefaults(id, b).PortBody? && Filled(WithDefaults(id, b).port)
  {
  }

  /** Only creates and updates write the body of a port. */
  lemma OtherCallsKeepPorts(r: Rules, s: State, c: Call, k: Key)
    requires Submitted(c).None? && k in Apply(r, s, c).rows && Apply(r, s, c).rows[k].body.PortBody?
    ensures k in s.rows && s.rows[k].body == Apply(r, s, c).rows[k].body
  {
  }

  lemma CallKeepsPortsFilled(r: Rules, s: State, c: Call)
    requires Invariant(r, s.rows) && PortsFilled(s.rows)
    ensures PortsFilled(Apply(r, s, c).rows)
  {
    CallKeepsInvariant(r, s, c);
    forall k | k in Apply(r, s, c).rows
      && Apply(r, s, c).rows[k].body.PortBody?
      ensures Filled(Apply(r, s, c).rows[k].body.port)
    {
      RowIsFilled(r, s, c, k);
    }
  }

  lemma RowIsFilled(r: Rules, s: State, c: Call, k: Key)
    requires PortsFilled(s.rows) && k in Apply(r, s, c).rows && Apply(r, s, c).rows[k].body.PortBody? && k.id != ""
    ensures Filled(Apply(r, s, c).rows[k].body.port)
  {
    if Submitted(c).Some? {
      SubmissionEffect(r, s, c, k);
      if c.sub.body.PortBody? {
        DefaultsFill(k.id, c.sub.body);
      }
    } else {
      OtherCallsKeepPorts(r, s, c, k);
    }
  }

  lemma {:induction false} RunKeepsPortsFilled(r: Rules, s: State, calls: seq<Call>)
    requires Invariant(r, s.rows) && PortsFilled(s.rows)
    ensures Invariant(r, Run(r, s, calls).rows) && PortsFilled(Run(r, s, calls).rows)
    decreases |calls|
  {
    if calls != [] {
      CallKeepsInvariant(r, s, calls[0]);
      CallKeepsPortsFilled(r, s, calls[0]);
      RunKeepsPortsFilled(r, Apply(r, s, calls[0]), calls[1..]);
    }
  }

  /** Main result: every port of every reachable store has a positive generation, a status, an LSP name, a network, a
      name and a MAC address, which is what the lifecycle handlers take for granted. */
  lemma EveryStoredPort(r: Rules, calls: seq<Call>, k: Key)
    requires k in Run(r, Empty, calls).rows && Run(r, Empty, calls).rows[k].body.PortBody?
    ensures var p := Run(r, Empty, calls).rows[k].body.port;
            && p.generation >= 1 && p.status != Unset && p.lspName != ""
            && p.networkId != "" && p.name != "" && p.mac != ""
  {
    RunKeepsPortsFilled(r, Empty, calls);
    assert Shape(Run(r, Empty, calls).rows[k].body);
  }
}
