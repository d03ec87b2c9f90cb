/** The admission policy of ops_service.go. */
module Policy {
  import opened Text
  import opened OpsModel

  datatype OpsPolicy = OpsPolicy(requireOwner: bool, requiredLabel: string, maxActive: int)
  {
    function Check(record: OpsRecord): Option<OpsError> {
      if requireOwner && TrimSpace(record.owner) == "" then Some(PolicyRefused)
      else if requiredLabel != "" && record.LabelValue(requiredLabel) == "" then Some(PolicyRefused)
      else if record.priority == OtherPriority("") then Some(PolicyRefused)
      else None
    }
  }

  const SERVICE_POLICY := OpsPolicy(true, "site", 1000)

  /** What Create would store, before the stamps are set. */
  function Admit(record: OpsRecord): Reply<OpsRecord> {
    var normal := NormalizeOpsRecord(record);
    match SERVICE_POLICY.Check(normal)
    case Some(e) => Err(e)
    case None => Ok(normal)
  }

  /** Exactly the records with an owner that is not blank, a site label and a priority get in, and
      what gets in is in normal form. */
  lemma AdmitExactly(record: OpsRecord)
    ensures Admit(record).Ok? <==>
      && !AllSpace(record.owner) && record.priority != OtherPriority("")
      && "site" in record.labels && record.labels["site"] != ""
    ensures if Admit(record).Ok? then InNormalForm(Admit(record).value) else Admit(record) == Err(PolicyRefused)
  {
    NormalForm(record);
    TrimEmpty(record.owner);
    TrimSound(record.owner);
    TrimSound(TrimSpace(record.owner));
  }
}
