/**
 * The badge classes of the purchasing screens (`compras/utils.js`): a
 * status or a priority is looked up in a fixed table, and anything the
 * table does not name shows the pending badge.
 */
module ComprasUtils {
  import opened Js

  const Pending: string := "status-pending"
  const Approved: string := "status-approved"
  const Rejected: string := "status-rejected"
  const Completed: string := "status-completed"

  /** The status table of `getStatusBadge`. */
  const StatusClasses: map<string, string> := map[
    "pendente" := Pending,
    "aprovada" := Approved,
    "rejeitada" := Rejected,
    "em-cotacao" := Completed,
    "aguardando-aprovacao" := Pending,
    "enviado" := Completed,
    "recebido" := Approved]

  /** The priority table of `getPrioridadeBadge`. */
  const PriorityClasses: map<string, string> := map[
    "alta" := Rejected,
    "media" := Pending,
    "baixa" := Completed]

  /** `table[key] || "status-pending"`; only a string can name an entry of the table. */
  function Lookup(table: map<string, string>, key: Value): string {
    if key.Str? && key.s in table && table[key.s] != "" then table[key.s] else Pending
  }

  /** `getStatusBadge(status)`. */
  function StatusBadge(status: Value): (badge: string)
    ensures badge in {Pending, Approved, Rejected, Completed}
    ensures badge == Approved <==> status == Str("aprovada") || status == Str("recebido")
    ensures badge == Rejected <==> status == Str("rejeitada")
    ensures badge == Completed <==> status == Str("em-cotacao") || status == Str("enviado")
    ensures badge == Pending <==> !(status.Str? && status.s in {"aprovada", "recebido", "rejeitada", "em-cotacao", "enviado"})
  {
    Lookup(StatusClasses, status)
  }

  /** `getPrioridadeBadge(prioridade)`. */
  function PrioridadeBadge(prioridade: Value): (badge: string)
    ensures badge in {Pending, Rejected, Completed}
    ensures badge == Rejected <==> prioridade == Str("alta")
    ensures badge == Completed <==> prioridade == Str("baixa")
    ensures badge == Pending <==> !(prioridade.Str? && prioridade.s in {"alta", "baixa"})
  {
    Lookup(PriorityClasses, prioridade)
  }
}
