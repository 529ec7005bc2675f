/** `src/features/qa/components/QaPanel.tsx`: the QA status card and its
    "can we trade today?" badge. */
module QaPanel {
  import opened Domain

  datatype BadgeColour = Green | Red | Yellow

  /** `statusColor`. */
  function StatusColour(qa: QaStatus): BadgeColour
  {
    if qa.canTradeToday && qa.dataOk && qa.leakageRisk == Ok && qa.modelDrift == Ok then Green
    else if qa.leakageRisk == Block || qa.modelDrift == Block then Red
    else Yellow
  }

  /** The badge's label. */
  function BadgeLabel(qa: QaStatus): string
  {
    if qa.canTradeToday then "JA" else "NEIN"
  }

  /** Green exactly when trading is allowed, the data is fine and neither
      check reports anything; red exactly when it is not green and a check
      blocks; yellow otherwise. Any block rules out green. Green always reads
      "JA", but "JA" can sit on a red or yellow badge. */
  lemma StatusColourSpec(qa: QaStatus)
    ensures StatusColour(qa) == Green <==>
      qa.canTradeToday && qa.dataOk && qa.leakageRisk == Ok && qa.modelDrift == Ok
    ensures StatusColour(qa) == Red <==>
      StatusColour(qa) != Green && (qa.leakageRisk == Block || qa.modelDrift == Block)
    ensures StatusColour(qa) == Yellow <==>
      !(qa.canTradeToday && qa.dataOk && qa.leakageRisk == Ok && qa.modelDrift == Ok) &&
      qa.leakageRisk != Block && qa.modelDrift != Block
    ensures qa.leakageRisk == Block || qa.modelDrift == Block ==> StatusColour(qa) == Red
    ensures BadgeLabel(qa) == "JA" <==> qa.canTradeToday
    ensures StatusColour(qa) == Green ==> BadgeLabel(qa) == "JA"
    ensures qa.canTradeToday && qa.leakageRisk == Block ==> BadgeLabel(qa) == "JA" && StatusColour(qa) == Red
  {
  }
}
