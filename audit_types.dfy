/** The record shapes of the audit vault (types.ts). */
module AuditTypes {

  datatype Option<+T> = None | Some(value: T)

  /** Which tool produced a result. */
  datatype AuditType = CODE | CLOUD | OSINT | URL | BREACH | PASSWORD

  /** One past analysis outcome. `score` and `remediation` are the optional fields. */
  datatype AuditResult = AuditResult(
    id: string,
    timestamp: string,
    kind: AuditType,
    content: string,
    summary: string,
    score: Option<real>,
    remediation: Option<string>)

  /** What a tool hands to the vault: an AuditResult without `id` and `timestamp`. */
  datatype AuditDraft = AuditDraft(
    kind: AuditType,
    content: string,
    summary: string,
    score: Option<real>,
    remediation: Option<string>)

  /** The draft with the generated id and timestamp added; the draft's own fields are kept. */
  function Stamp(d: AuditDraft, id: string, timestamp: string): (r: AuditResult)
    ensures Unstamp(r) == d
    ensures r.id == id && r.timestamp == timestamp
  {
    AuditResult(id, timestamp, d.kind, d.content, d.summary, d.score, d.remediation)
  }

  /** The fields of a stored result that came from the tool. */
  function Unstamp(r: AuditResult): AuditDraft
  {
    AuditDraft(r.kind, r.content, r.summary, r.score, r.remediation)
  }
}
