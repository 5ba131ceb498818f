/**
 Triage: the ownership table and the envelope scan agree, and re-running triage in any
 order never lets two matching recordings of a speaker both count as clean.
 */
module TriageProofs {
  import opened Wrappers
  import opened Fingerprints
  import opened Records
  import opened World
  import opened Protocol
  import opened Invariant

  /** Storing and re-reading a fingerprint as text loses nothing that matching looks at. */
  lemma StoredBlocksIffMatches(turn: Turn, candidate: AcousticFingerprint, tolerance: Tolerance)
    requires TurnOk(turn) && turn.quality.Some?
    ensures Blocks(turn.quality.value, candidate, tolerance) <==> Matches(turn.audio.value, candidate, tolerance)
  {
    var envelope := turn.audio.value.envelope;
    EnvelopeRoundTrip(envelope);
    EncodeLength(envelope);
  }

  /** Turn `t` is being triaged: its recording is the candidate. */
  ghost predicate Candidate(turns: map<TurnId, Turn>, speaker: PlayerId, candidate: AcousticFingerprint, t: TurnId) {
    t in turns && turns[t].speaker == speaker && turns[t].audio == Some(candidate)
  }

  lemma OtherOwnerBlocks(turns: map<TurnId, Turn>, owners: map<(PlayerId, Digest), TurnId>, speaker: PlayerId,
                         candidate: AcousticFingerprint, t: TurnId, tolerance: Tolerance)
    requires OwnersOk(turns, owners)
    requires (speaker, candidate.contentHash) in owners && owners[(speaker, candidate.contentHash)] != t
    ensures !ScanUnowned(turns, speaker, candidate, t, tolerance)
  {
    var other := owners[(speaker, candidate.contentHash)];
    assert Owner(owners, speaker, candidate.contentHash, other);
    assert Owns(turns, speaker, candidate.contentHash, other);
    assert BlockedBy(turns, speaker, candidate, other, tolerance);
  }

  lemma OwnRowIsOwnKey(turns: map<TurnId, Turn>, owners: map<(PlayerId, Digest), TurnId>, speaker: PlayerId,
                       candidate: AcousticFingerprint, t: TurnId, key: (PlayerId, Digest))
    requires TurnsOk(turns) && OwnersOk(turns, owners) && Candidate(turns, speaker, candidate, t)
    requires key in owners && owners[key] == t
    ensures key == (speaker, candidate.contentHash)
  {
    assert Owner(owners, key.0, key.1, t);
    assert Owns(turns, key.0, key.1, t);
    assert TurnOk(turns[t]);
  }

  /**
   The exact-hash table never changes a verdict: a recording is registered as clean exactly
   when the scan finds no other stored recording of the speaker that matches it.
   */
  lemma RegistrationIsScan(turns: map<TurnId, Turn>, owners: map<(PlayerId, Digest), TurnId>, speaker: PlayerId,
                           candidate: AcousticFingerprint, t: TurnId, tolerance: Tolerance)
    requires TurnsOk(turns) && OwnersOk(turns, owners) && Candidate(turns, speaker, candidate, t)
    ensures Register(turns, owners, speaker, candidate, t, tolerance).1
       <==> ScanUnowned(turns, speaker, candidate, t, tolerance)
  {
    var key := (speaker, candidate.contentHash);
    if key in owners {
      if owners[key] != t {
        OtherOwnerBlocks(turns, owners, speaker, candidate, t, tolerance);
      }
    } else if t in owners.Values {
      var other :| other in owners && owners[other] == t;
      OwnRowIsOwnKey(turns, owners, speaker, candidate, t, other);
      assert false;
    }
  }

  /** The table after registration: this turn's row exactly when it is clean, all other rows as before. */
  lemma RegisteredOwners(turns: map<TurnId, Turn>, owners: map<(PlayerId, Digest), TurnId>, speaker: PlayerId,
                         candidate: AcousticFingerprint, t: TurnId, tolerance: Tolerance, s: PlayerId, h: Digest, u: TurnId)
    requires TurnsOk(turns) && OwnersOk(turns, owners) && Candidate(turns, speaker, candidate, t)
    ensures var (after, owned) := Register(turns, owners, speaker, candidate, t, tolerance);
            Owner(after, s, h, u) <==>
              if u == t then owned && (s, h) == (speaker, candidate.contentHash) else Owner(owners, s, h, u)
  {
    var key := (speaker, candidate.contentHash);
    RegistrationIsScan(turns, owners, speaker, candidate, t, tolerance);
    if Owner(owners, s, h, t) {
      OwnRowIsOwnKey(turns, owners, speaker, candidate, t, (s, h));
    }
    if key !in owners && t in owners.Values {
      var other :| other in owners && owners[other] == t;
      OwnRowIsOwnKey(turns, owners, speaker, candidate, t, other);
      assert false;
    }
  }

  /** The turn rows after triage of `t`. */
  ghost function TriagedTurns(turns: map<TurnId, Turn>, t: TurnId, verdict: Gates, candidate: AcousticFingerprint,
                              owned: bool): map<TurnId, Turn>
    requires t in turns
  {
    turns[t := turns[t].(quality := Some(StoredQuality(verdict, candidate, owned)))]
  }

  lemma TriageKeepsOwners(turns: map<TurnId, Turn>, owners: map<(PlayerId, Digest), TurnId>, speaker: PlayerId,
                          candidate: AcousticFingerprint, t: TurnId, verdict: Gates, tolerance: Tolerance)
    requires TurnsOk(turns) && OwnersOk(turns, owners) && Candidate(turns, speaker, candidate, t)
    ensures var (owners', owned) := Register(turns, owners, speaker, candidate, t, tolerance);
            OwnersOk(TriagedTurns(turns, t, verdict, candidate, owned), owners')
  {
    var (owners', owned) := Register(turns, owners, speaker, candidate, t, tolerance);
    var after := TriagedTurns(turns, t, verdict, candidate, owned);
    forall s, h, u ensures Owner(owners', s, h, u) <==> Owns(after, s, h, u) {
      RegisteredOwners(turns, owners, speaker, candidate, t, tolerance, s, h, u);
      assert Owner(owners, s, h, u) <==> Owns(turns, s, h, u);
      if u != t {
        assert Owns(after, s, h, u) <==> Owns(turns, s, h, u);
      }
    }
  }

  /** A turn that registers as clean matches no turn that was ever clean before it. */
  lemma CleanTurnIsNew(turns: map<TurnId, Turn>, clean: set<TurnId>, speaker: PlayerId, candidate: AcousticFingerprint,
                       t: TurnId, u: TurnId, tolerance: Tolerance)
    requires TurnsOk(turns) && CleanOk(turns, clean, tolerance) && Candidate(turns, speaker, candidate, t)
    requires ScanUnowned(turns, speaker, candidate, t, tolerance)
    requires u in clean && u != t && turns[u].speaker == speaker
    ensures !Matches(turns[u].audio.value, candidate, tolerance)
    ensures !Matches(candidate, turns[u].audio.value, tolerance)
  {
    StoredBlocksIffMatches(turns[u], candidate, tolerance);
    assert !BlockedBy(turns, speaker, candidate, u, tolerance);
    MatchesSymmetric(turns[u].audio.value, candidate, tolerance);
  }

  lemma TriageKeepsClean(turns: map<TurnId, Turn>, clean: set<TurnId>, owners: map<(PlayerId, Digest), TurnId>,
                         speaker: PlayerId, candidate: AcousticFingerprint, t: TurnId, verdict: Gates,
                         tolerance: Tolerance)
    requires TurnsOk(turns) && OwnersOk(turns, owners) && CleanOk(turns, clean, tolerance)
    requires Candidate(turns, speaker, candidate, t)
    ensures var owned := Register(turns, owners, speaker, candidate, t, tolerance).1;
            CleanOk(TriagedTurns(turns, t, verdict, candidate, owned), if owned then clean + {t} else clean, tolerance)
  {
    var owned := Register(turns, owners, speaker, candidate, t, tolerance).1;
    var after := TriagedTurns(turns, t, verdict, candidate, owned);
    var clean' := if owned then clean + {t} else clean;
    RegistrationIsScan(turns, owners, speaker, candidate, t, tolerance);
    forall u, v | u in clean' && v in clean' && u != v ensures Triaged(after, u) && Triaged(after, v)
                                                            && !SameUtterance(after, u, v, tolerance) {
      if u in clean && v in clean {
        assert !SameUtterance(turns, u, v, tolerance);
      } else {
        var other := if u == t then v else u;
        if turns[other].speaker == speaker {
          CleanTurnIsNew(turns, clean, speaker, candidate, t, other, tolerance);
        }
      }
    }
    forall u | StoredClean(after, u) ensures u in clean' {
      if u != t {
        assert StoredClean(turns, u);
      }
    }
  }

  /**
   Re-running triage of a clean turn: it stays clean exactly when no other recording of the
   speaker that has been triaged since matches it, whatever that recording's own flag says.
   */
  lemma RetriageVerdict(world: World, clean: set<TurnId>, t: TurnId, verdict: Gates, tolerance: Tolerance)
    requires TurnsOk(world.turns) && OwnersOk(world.turns, world.owners)
    requires t in world.turns && world.turns[t].audio.Some?
    ensures var turn := world.turns[t];
            var after := PersistTriage(world, t, verdict, turn.speaker, turn.audio.value, tolerance);
            StoredClean(after.turns, t) <==>
              forall u :: u != t && Triaged(world.turns, u) && world.turns[u].speaker == turn.speaker ==>
                !Matches(world.turns[u].audio.value, turn.audio.value, tolerance)
  {
    var turns := world.turns;
    var speaker, candidate := turns[t].speaker, turns[t].audio.value;
    RegistrationIsScan(turns, world.owners, speaker, candidate, t, tolerance);
    forall u ensures BlockedBy(turns, speaker, candidate, u, tolerance) <==>
                     Triaged(turns, u) && turns[u].speaker == speaker && Matches(turns[u].audio.value, candidate, tolerance) {
      if u in turns && turns[u].quality.Some? {
        assert TurnOk(turns[u]);
        StoredBlocksIffMatches(turns[u], candidate, tolerance);
      }
    }
  }
}
