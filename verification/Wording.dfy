/** The longer status texts the engine writes by itself, joined from short literals. */
module Wording {
  import opened Basics
  import opened Utf8

  function LostApply(): (t: Text)
    ensures Printable(t) && |t| < 100
  {
    "the apply outcome is " + "unknown and requires " + "readback"
  }

  function LostReadback(): (t: Text)
    ensures Printable(t) && |t| < 100
  {
    "the readback could not " + "determine device state"
  }

  function Mismatched(): (t: Text)
    ensures Printable(t) && |t| < 100
  {
    "readback reported a " + "mismatch after a successful " + "apply"
  }

  function FencedReason(): (t: Text)
    ensures Printable(t) && |t| < 100
  {
    "OWNERSHIP_FENCED"
  }

  function UnknownReason(): (t: Text)
    ensures Printable(t) && |t| < 100
  {
    "APPLY_OUTCOME_UNKNOWN"
  }

  function BoundReason(): (t: Text)
    ensures Printable(t) && |t| < 100
  {
    "BOUND"
  }

  function FencedDetail(): (t: Text)
    ensures Printable(t) && |t| < 100
  {
    "ownership released when the " + "holding incarnation was " + "fenced"
  }

  function RestartDetail(): (t: Text)
    ensures Printable(t) && |t| < 100
  {
    "ownership granted under an " + "earlier coordinator epoch " + "does not survive"
  }

  function RestartReason(): (t: Text)
    ensures Printable(t) && |t| < 100
  {
    "OWNERSHIP_RELEASED_ON_RESTART"
  }

  function RecoveryReason(): (t: Text)
    ensures Printable(t) && |t| < 100
  {
    "OWNERSHIP_RELEASED_ON_RECOVERY"
  }

  function RecoveryDetail(): (t: Text)
    ensures Printable(t) && |t| < 100
  {
    "ownership held by a " + "previous process " + "incarnation does not " + "survive restart"
  }

  function RecoveredReason(): (t: Text)
    ensures Printable(t) && |t| < 100
  {
    "RECOVERED_FROM_PERSISTENCE"
  }

  function DesiredRecovered(): (t: Text)
    ensures Printable(t) && |t| < 100
  {
    "durable desired " + "configuration recovered; " + "revalidation "
  }

  function AgainstCurrent(): (t: Text)
    ensures Printable(t) && |t| < 100
  {
    "against current device, " + "topology and capability " + "generations is "
  }

  function BeforeTrusted(): (t: Text)
    ensures Printable(t) && |t| < 100
  {
    "required before it is " + "trusted again"
  }

  function RecoveredDetail(): (t: Text)
    ensures Printable(t) && |t| < 300
  {
    hide DesiredRecovered, AgainstCurrent, BeforeTrusted;
    DesiredRecovered() + AgainstCurrent() + BeforeTrusted()
  }

  /** All of them fit their fields. */
  lemma WordingIsText()
    ensures ValidText(RestartReason(), MAX_NAME_LENGTH) && ValidText(RestartDetail(), MAX_DESCRIPTION_LENGTH)
    ensures ValidText(RecoveryReason(), MAX_NAME_LENGTH) && ValidText(RecoveryDetail(), MAX_DESCRIPTION_LENGTH)
    ensures ValidText(RecoveredReason(), MAX_NAME_LENGTH) && ValidText(RecoveredDetail(), MAX_DESCRIPTION_LENGTH)
    ensures ValidText(FencedReason(), MAX_NAME_LENGTH) && ValidText(UnknownReason(), MAX_NAME_LENGTH)
    ensures ValidText(BoundReason(), MAX_NAME_LENGTH)
    ensures ValidText(FencedDetail(), MAX_DESCRIPTION_LENGTH)
    ensures ValidText(LostApply(), MAX_DESCRIPTION_LENGTH) && ValidText(LostReadback(), MAX_DESCRIPTION_LENGTH)
    ensures ValidText(Mismatched(), MAX_DESCRIPTION_LENGTH)
  {
    hide FencedReason, UnknownReason, BoundReason, LostApply, LostReadback, Mismatched, FencedDetail, RestartDetail, RestartReason, RecoveryReason;
    hide RecoveryDetail, RecoveredReason, RecoveredDetail, ValidText;
    AsciiIsText(FencedReason(), MAX_NAME_LENGTH);
    AsciiIsText(UnknownReason(), MAX_NAME_LENGTH);
    AsciiIsText(BoundReason(), MAX_NAME_LENGTH);
    AsciiIsText(RestartReason(), MAX_NAME_LENGTH);
    AsciiIsText(RestartDetail(), MAX_DESCRIPTION_LENGTH);
    AsciiIsText(RecoveryReason(), MAX_NAME_LENGTH);
    AsciiIsText(RecoveryDetail(), MAX_DESCRIPTION_LENGTH);
    AsciiIsText(RecoveredReason(), MAX_NAME_LENGTH);
    AsciiIsText(RecoveredDetail(), MAX_DESCRIPTION_LENGTH);
    AsciiIsText(FencedDetail(), MAX_DESCRIPTION_LENGTH);
    AsciiIsText(LostApply(), MAX_DESCRIPTION_LENGTH);
    AsciiIsText(LostReadback(), MAX_DESCRIPTION_LENGTH);
    AsciiIsText(Mismatched(), MAX_DESCRIPTION_LENGTH);
  }
}
