/** The cookie key the operator keeps in a secret of its own, across restarts. */
module CookieKey {
  import opened Types
  import opened RandomKey

  const ENTRY := "ssoCookieKey"

  datatype StartCall = Connect | ReadSecret | DropSecret | GenerateKey | StoreSecret

  type Stored = Option<map<string, string>>

  // ---------- the effect of the calls ----------

  /** What is stored after reading the key, and the key if that worked. Anything but a good secret is dropped. */
  function ReadEffect(stored: Stored, faults: set<StartCall>): (Stored, Option<string>) {
    if Connect in faults then (stored, None)
    else if ReadSecret in faults then (Dropped(stored, faults), None)
    else if stored.None? then (stored, None)
    else if ENTRY in stored.value then (stored, Some(stored.value[ENTRY]))
    else (Dropped(stored, faults), None)
  }

  function Dropped(stored: Stored, faults: set<StartCall>): Stored {
    if DropSecret in faults then stored else None
  }

  /** What is stored after a start of the operator, and the key in its memory if it started. */
  function StartEffect(stored: Stored, faults: set<StartCall>, random: seq<byte>): (Stored, Option<string>) {
    var (kept, key) := ReadEffect(stored, faults);
    if key.Some? then (kept, key)
    else if GenerateKey in faults || StoreSecret in faults || kept.Some? then (kept, None)
    else
      var generated := AsString(Image(random));
      (Some(map[ENTRY := generated]), Some(generated))
  }

  /** The secret in the operator's namespace. */
  class OperatorSecret {
    var stored: Stored

    method Drop(faults: set<StartCall>) returns (ok: bool)
      modifies this
      ensures stored == Dropped(old(stored), faults)
      ensures ok <==> DropSecret !in faults && old(stored).Some?
    {
      if DropSecret in faults {
        return false;
      }
      ok := stored.Some?;
      stored := None;
    }

    method Read(faults: set<StartCall>) returns (key: Option<string>)
      modifies this
      ensures (stored, key) == ReadEffect(old(stored), faults)
    {
      if Connect in faults {
        return None;
      }
      if ReadSecret in faults {
        var _ := Drop(faults);
        return None;
      }
      if stored.None? {
        return None;
      }
      if ENTRY !in stored.value {
        var _ := Drop(faults);
        return None;
      }
      key := Some(stored.value[ENTRY]);
    }

    method Store(key: string, faults: set<StartCall>) returns (ok: bool)
      modifies this
      ensures ok <==> StoreSecret !in faults && old(stored).None?
      ensures stored == if ok then Some(map[ENTRY := key]) else old(stored)
    {
      if StoreSecret in faults || stored.Some? {
        return false;
      }
      stored := Some(map[ENTRY := key]);
      ok := true;
    }

    /** Starts the operator: the existing key, or a new one once that is stored. */
    method NewHandler(faults: set<StartCall>, random: array<byte>) returns (key: Option<string>)
      requires random.Length == KEY_LENGTH
      modifies this, random
      ensures (stored, key) == StartEffect(old(stored), faults, old(random[..]))
      ensures old(stored).None? && faults == {} ==> key.Some? && |key.value| == 32
    {
      key := Read(faults);
      if key.None? {
        if GenerateKey in faults {
          return None;
        }
        var generated := GenerateSecret(random);
        var ok := Store(generated, faults);
        key := if ok then Some(generated) else None;
      }
    }
  }

  // ---------- what a start achieves ----------

  /** An operator that has started uses the stored key, on every path. */
  lemma StartUsesStoredKey(stored: Stored, faults: set<StartCall>, random: seq<byte>)
    ensures var (now, key) := StartEffect(stored, faults, random);
            key.Some? ==> now.Some? && ENTRY in now.value && now.value[ENTRY] == key.value
  {
  }

  /** The read finds a key. */
  predicate Reads(stored: Stored, faults: set<StartCall>) {
    Connect !in faults && ReadSecret !in faults && stored.Some? && "ssoCookieKey" in stored.value
  }

  /** No secret is there once the read is over: none was, or one that could not be read or has no key was dropped. */
  predicate Vacant(stored: Stored, faults: set<StartCall>) {
    stored.Some? ==>
      && Connect !in faults && DropSecret !in faults
      && (ReadSecret in faults || "ssoCookieKey" !in stored.value)
  }

  /** Exactly when the operator starts, with which key, and what is stored then. */
  lemma StartSucceeds(stored: Stored, faults: set<StartCall>, random: seq<byte>)
    ensures var (now, key) := StartEffect(stored, faults, random);
            && (key.Some? <==>
                  || Reads(stored, faults)
                  || (Vacant(stored, faults) && GenerateKey !in faults && StoreSecret !in faults))
            && (Reads(stored, faults) ==> now == stored && key == Some(stored.value["ssoCookieKey"]))
            && (key.Some? && !Reads(stored, faults) ==>
                  && now == Some(map["ssoCookieKey" := key.value])
                  && |key.value| == |random|
                  && forall c :: c in key.value ==> '0' <= c <= '9' || 'A' <= c <= 'Z' || 'a' <= c <= 'z')
            && (key.None? ==> now == if Vacant(stored, faults) then None else stored)
  {
    forall c | c in AsString(Image(random)) ensures Alphanumeric(c) {
      var i :| 0 <= i < |random| && AsString(Image(random))[i] == c;
      SecretIsAlphanumeric(random, i);
    }
  }

  /** From any state, a fresh installation included, the operator starts if no call fails. */
  lemma StartsUnfaulted(stored: Stored, random: seq<byte>)
    requires |random| == 32
    ensures var (now, key) := StartEffect(stored, {}, random);
            && key.Some? && now.Some? && "ssoCookieKey" in now.value && now.value["ssoCookieKey"] == key.value
            && (stored.None? || "ssoCookieKey" !in stored.value ==> |key.value| == 32)
  {
    StartSucceeds(stored, {}, random);
  }

  predicate Good(stored: Stored) { stored.Some? && ENTRY in stored.value }

  /** A stored key survives exactly if the read does not fail, or fails to connect, or the drop fails too. */
  lemma KeySurvives(stored: Stored, faults: set<StartCall>, random: seq<byte>)
    requires Good(stored) && AsString(Image(random)) != stored.value[ENTRY]
    ensures var (now, key) := StartEffect(stored, faults, random);
            && (Good(now) && now.value[ENTRY] == stored.value[ENTRY] <==>
                  Connect in faults || ReadSecret !in faults || DropSecret in faults)
            && (key == Some(stored.value[ENTRY]) <==> Connect !in faults && ReadSecret !in faults)
  {
  }

  // ---------- restarts ----------

  datatype Start = Start(faults: set<StartCall>, random: seq<byte>)

  function Restarts(stored: Stored, starts: seq<Start>): Stored
    decreases |starts|
  {
    if starts == [] then stored
    else Restarts(StartEffect(stored, starts[0].faults, starts[0].random).0, starts[1..])
  }

  /** While reads of the stored key succeed it never changes, and every start that succeeds uses it. */
  lemma {:induction false} KeyIsStable(stored: Stored, starts: seq<Start>, i: nat)
    requires Good(stored) && i < |starts|
    requires forall s :: s in starts ==> ReadSecret !in s.faults
    ensures Restarts(stored, starts) == stored
    ensures var (_, key) := StartEffect(Restarts(stored, starts[..i]), starts[i].faults, starts[i].random);
            key.Some? ==> key.value == stored.value[ENTRY]
    decreases |starts|
  {
    assert starts[0] in starts;
    assert StartEffect(stored, starts[0].faults, starts[0].random).0 == stored;
    if i > 0 {
      KeyIsStable(stored, starts[1..], i - 1);
      assert starts[..i][1..] == starts[1..][..i - 1];
    } else {
      assert starts[..0] == [];
      if |starts| > 1 {
        KeyIsStable(stored, starts[1..], 0);
      }
    }
  }

  /** A key the operator made: 32 letters and digits. */
  ghost predicate Made(stored: Stored) {
    Good(stored) ==> |stored.value[ENTRY]| == 32 && forall c :: c in stored.value[ENTRY] ==> Alphanumeric(c)
  }

  /** Whatever fails, every key stored or used over any run of restarts is one the operator made. */
  lemma {:induction false} KeysAreMade(stored: Stored, starts: seq<Start>)
    requires Made(stored) && forall s :: s in starts ==> |s.random| == 32
    ensures Made(Restarts(stored, starts))
    decreases |starts|
  {
    if starts != [] {
      assert starts[0] in starts;
      StartMakes(stored, starts[0].faults, starts[0].random);
      KeysAreMade(StartEffect(stored, starts[0].faults, starts[0].random).0, starts[1..]);
    }
  }

  lemma StartMakes(stored: Stored, faults: set<StartCall>, random: seq<byte>)
    requires Made(stored) && |random| == 32
    ensures Made(StartEffect(stored, faults, random).0)
  {
    var text := AsString(Image(random));
    forall c | c in text ensures Alphanumeric(c) {
      var i :| 0 <= i < |text| && text[i] == c;
      SecretIsAlphanumeric(random, i);
    }
  }
}
