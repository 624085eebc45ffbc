/** The static gate table, its default traversal order and the two lookups over it. */
module GateRegistry {
  import opened Wrappers
  import opened Config
  import opened GateModels

  /** The table as the dict literal lists it: (key, gate) pairs in insertion order. */
  type Registry = seq<(int, GateConfig)>

  /** The shipped table. Prompt identifiers and the prompt version come from the settings. */
  function Shipped(s: AppSettings): Registry {
    [ (1, NewGate(1, "Product Selection", Universal,
                  promptId := Some(s.openaiPromptIdGate1),
                  promptVersion := Some(s.openaiPromptVersion),
                  variablesTemplate := map["product_options" := "product_options"],
                  status := Active)),
      (2, NewGate(2, "Dimensions & State", Universal,
                  promptId := Some(s.openaiPromptIdGate2),
                  status := Active)),
      (3, NewGate(3, "Bay Logic & Pricing", Universal)),
      (4, NewGate(4, "Structure & Posts", Universal)),
      (5, NewGate(5, "Color / Finish", ConfigRestricted)),
      (6, NewGate(6, "Roof Options", Universal)),
      (7, NewGate(7, "Electrical & Lighting", Universal)),
      (8, NewGate(8, "Fan & Heating", Universal)),
      (9, NewGate(9, "Screens & Enclosures", Universal)),
      (10, NewGate(10, "Permits & Engineering", Universal)),
      (11, NewGate(11, "Installation Options", Universal)),
      (12, NewGate(12, "Warranty & Protection", Universal)),
      (13, NewGate(13, "Discounts & Promotions", Universal)),
      (14, NewGate(14, "Summary & Review", Universal)),
      (15, NewGate(15, "Customer Info & Delivery", Universal)),
      (16, NewGate(16, "Final Quote & Checkout", Universal)) ]
  }

  /** `list(range(1, 17))` */
  const DefaultGateSequence: seq<int> := seq(16, i requires 0 <= i < 16 => i + 1)

  /** `registry.get(n)`: the gate stored under the first key equal to `n`. */
  function Lookup(reg: Registry, n: int): (r: Option<GateConfig>)
    ensures r.None? <==> forall i :: 0 <= i < |reg| ==> reg[i].0 != n
  {
    if reg == [] then None
    else if reg[0].0 == n then Some(reg[0].1)
    else Lookup(reg[1..], n)
  }

  /** The lookup finds the entry under the first occurrence of the key. */
  lemma {:induction false} LookupFinds(reg: Registry, n: int, i: int)
    requires 0 <= i < |reg| && reg[i].0 == n
    requires forall j :: 0 <= j < i ==> reg[j].0 != n
    ensures Lookup(reg, n) == Some(reg[i].1)
  {
    if i > 0 {
      LookupFinds(reg[1..], n, i - 1);
    }
  }

  /** `get_gate(n)`: the gate stored under `n`, or KeyError. */
  function GetGate(reg: Registry, n: int): (r: Result<GateConfig>)
    ensures r.Err? <==> Lookup(reg, n).None?
    ensures r.Err? ==> r.error == KeyError(n)
    ensures r.Ok? ==> Lookup(reg, n) == Some(r.value)
  {
    match Lookup(reg, n)
    case Some(g) => Ok(g)
    case None => Err(KeyError(n))
  }

  /** `gate_cfg and gate_cfg.status == ACTIVE` for `gate_cfg = registry.get(n)`. */
  predicate IsActiveGate(reg: Registry, n: int) {
    Lookup(reg, n).Some? && Lookup(reg, n).value.status == Active
  }

  /** `get_active_gates()`: the ACTIVE gates, in table order. */
  function ActiveGates(reg: Registry): (r: seq<GateConfig>)
    ensures |r| <= |reg|
    ensures forall g :: g in r ==> g.status == Active && exists i :: 0 <= i < |reg| && reg[i].1 == g
    ensures forall i :: 0 <= i < |reg| && reg[i].1.status == Active ==> reg[i].1 in r
  {
    if reg == [] then []
    else if reg[0].1.status == Active then [reg[0].1] + ActiveGates(reg[1..])
    else ActiveGates(reg[1..])
  }

  /** The scan works piece by piece and keeps table order: the ACTIVE gates of `a` come first. */
  lemma {:induction false} ActiveGatesAppend(a: Registry, b: Registry)
    ensures ActiveGates(a + b) == ActiveGates(a) + ActiveGates(b)
  {
    if a == [] {
      assert a + b == b;
    } else {
      assert (a + b)[0] == a[0];
      assert (a + b)[1..] == a[1..] + b;
      ActiveGatesAppend(a[1..], b);
    }
  }

  /** A one-entry table lists its gate exactly when it is ACTIVE. */
  lemma ActiveGatesSingle(e: (int, GateConfig))
    ensures ActiveGates([e]) == if e.1.status == Active then [e.1] else []
  {
    assert [e][1..] == [];
  }

  /** Every key of the shipped table is its position plus one and equals the number of the gate under it. */
  lemma ShippedKeys(s: AppSettings)
    ensures |Shipped(s)| == 16
    ensures forall i :: 0 <= i < 16 ==> Shipped(s)[i].0 == i + 1 && Shipped(s)[i].1.number == i + 1
  {
  }

  /** Only the first two entries of the shipped table are ACTIVE; the rest are placeholders without a prompt. */
  lemma ShippedStatus(s: AppSettings)
    ensures forall i :: 0 <= i < 16 ==>
      (Shipped(s)[i].1.status == Active <==> i < 2) &&
      (2 <= i ==> Shipped(s)[i].1.promptId == None)
  {
  }

  /** Looking up a key of the shipped table finds the entry at that key's position. */
  lemma ShippedLookup(s: AppSettings, n: int)
    ensures Lookup(Shipped(s), n).Some? <==> 1 <= n <= 16
    ensures 1 <= n <= 16 ==> Lookup(Shipped(s), n) == Some(Shipped(s)[n - 1].1)
  {
    ShippedKeys(s);
    if 1 <= n <= 16 {
      LookupFinds(Shipped(s), n, n - 1);
    }
  }

  /** `get_gate(n)` succeeds exactly for 1..16, returns the gate numbered `n`, and raises KeyError otherwise (for 0 and 17 among others). */
  lemma GetGateShipped(s: AppSettings, n: int)
    ensures GetGate(Shipped(s), n).Ok? <==> 1 <= n <= 16
    ensures GetGate(Shipped(s), n).Ok? ==> GetGate(Shipped(s), n).value.number == n
    ensures GetGate(Shipped(s), n).Err? ==> GetGate(Shipped(s), n).error == KeyError(n)
  {
    ShippedLookup(s, n);
    ShippedKeys(s);
  }

  /** In the shipped table exactly gates 1 and 2 are ACTIVE. */
  lemma ShippedActiveGates(s: AppSettings, n: int)
    ensures IsActiveGate(Shipped(s), n) <==> n == 1 || n == 2
  {
    ShippedLookup(s, n);
    ShippedStatus(s);
  }

  /** Gates 3 to 16 are placeholders with no prompt identifier. */
  lemma ShippedPlaceholders(s: AppSettings, n: int)
    requires 3 <= n <= 16
    ensures GetGate(Shipped(s), n).Ok?
    ensures GetGate(Shipped(s), n).value.status == Placeholder
    ensures GetGate(Shipped(s), n).value.promptId == None
  {
    ShippedLookup(s, n);
    ShippedStatus(s);
  }

  /** Gate 1 feeds `product_options` from the settings field of that name and carries the prompt version; gate 2 declares no variables. */
  lemma ShippedFirstGates(s: AppSettings)
    ensures GetGate(Shipped(s), 1) == Ok(Shipped(s)[0].1)
    ensures Shipped(s)[0].1.variablesTemplate == map["product_options" := "product_options"]
    ensures Shipped(s)[0].1.promptVersion == Some(s.openaiPromptVersion)
    ensures GetGate(Shipped(s), 2) == Ok(Shipped(s)[1].1)
    ensures Shipped(s)[1].1.variablesTemplate == map[]
  {
    ShippedLookup(s, 1);
    ShippedLookup(s, 2);
  }

  lemma {:induction false} NoActiveGates(reg: Registry)
    requires forall i :: 0 <= i < |reg| ==> reg[i].1.status != Active
    ensures ActiveGates(reg) == []
  {
    if reg != [] {
      NoActiveGates(reg[1..]);
    }
  }

  /** `get_active_gates()` on the shipped table gives gates 1 and 2, in that order. */
  lemma ShippedActiveList(s: AppSettings)
    ensures ActiveGates(Shipped(s)) == [Shipped(s)[0].1, Shipped(s)[1].1]
    ensures ActiveGates(Shipped(s))[0].number == 1 && ActiveGates(Shipped(s))[1].number == 2
  {
    ShippedStatus(s);
    ShippedKeys(s);
    ActivePrefix(Shipped(s), 2);
  }

  /** The gates of a table, in table order, without their keys. */
  function GatesOf(reg: Registry): (r: seq<GateConfig>)
    ensures |r| == |reg| && forall i :: 0 <= i < |reg| ==> r[i] == reg[i].1
  {
    if reg == [] then [] else [reg[0].1] + GatesOf(reg[1..])
  }

  /** A table whose ACTIVE entries are exactly its first `k` lists exactly those `k` gates. */
  lemma {:induction false} ActivePrefix(reg: Registry, k: nat)
    requires k <= |reg|
    requires forall i :: 0 <= i < |reg| ==> (reg[i].1.status == Active <==> i < k)
    ensures ActiveGates(reg) == GatesOf(reg[..k])
  {
    if k == 0 {
      NoActiveGates(reg);
    } else {
      ActivePrefix(reg[1..], k - 1);
      assert reg[1..][..k - 1] == reg[..k][1..];
    }
  }

  /** `DEFAULT_GATE_SEQUENCE` runs through 1..16 in ascending order, and every element is a key of the shipped table. */
  lemma DefaultGateSequenceKeys(s: AppSettings)
    ensures |DefaultGateSequence| == 16
    ensures forall i :: 0 <= i < 16 ==> DefaultGateSequence[i] == i + 1
    ensures forall i :: 0 <= i < 16 ==> GetGate(Shipped(s), DefaultGateSequence[i]).Ok?
  {
    forall i | 0 <= i < 16
      ensures GetGate(Shipped(s), DefaultGateSequence[i]).Ok?
    {
      ShippedLookup(s, i + 1);
    }
  }
}
