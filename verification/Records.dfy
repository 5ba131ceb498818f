/**
 The rows and documents that the game, the worker and the corpus exchange
 (contracts/schema.sql, contracts/golden_record.md).  UUIDs are natural numbers.
 */
module Records {
  import opened Wrappers
  import opened Fingerprints

  type TurnId = nat
  type PlayerId = nat
  type ShardNumber = nat

  /** The yes/no findings that decide training eligibility. */
  datatype Gates = Gates(
    isSpeech: bool, singleSpeaker: bool, audioQualityOk: bool, contaminated: bool, duplicate: bool)

  /** Machine triage metadata stored in `turns.quality`. */
  datatype Quality = Quality(gates: Gates, dedupHash: Digest, acousticEnvelope: string)

  /** The part of the canonical record that the gate, the exporter and the corpus read. */
  datatype Golden = Golden(
    utterance: Option<TurnId>, speaker: PlayerId, correct: bool, gates: Gates, dedupHash: Digest, packagedAt: nat)

  /** The frozen gate: every machine check passed and a human validated the label. */
  predicate Eligible(gates: Gates, correct: bool) {
    gates.isSpeech && gates.singleSpeaker && gates.audioQualityOk && !gates.contaminated
    && correct && !gates.duplicate
  }

  datatype TurnStatus = AwaitingAudio | AwaitingLabelConfirm | AwaitingGuess | Scored

  datatype Outcome = Undecided | Validated | Unclear
}
