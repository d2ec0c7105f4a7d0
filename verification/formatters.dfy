/** Display label and badge colour of a stored bonus state
    (`src/lib/formatters.ts`). */
module Formatters {
  import opened Types

  const COLOR_RECLAMADO: string := "bg-green-100 text-green-700 ring-green-600/20"
  const COLOR_PENDIENTE: string := "bg-blue-50 text-blue-700 ring-blue-700/10"
  const COLOR_VENCIDO: string := "bg-red-50 text-red-700 ring-red-600/10"
  const COLOR_ALERTA: string := "bg-yellow-50 text-yellow-800 ring-yellow-600/20"
  const COLOR_OTHER: string := "bg-gray-50 text-gray-600 ring-gray-500/10"

  /** One of the four states the application itself writes or expects. */
  predicate IsKnownStatus(status: string) {
    status == RECLAMADO || status == PENDIENTE || status == VENCIDO || status == ALERTA_5_MESES
  }

  /** `getStatusColor` */
  function GetStatusColor(status: string): (color: string)
    ensures !IsKnownStatus(status) <==> color == COLOR_OTHER
    ensures status == RECLAMADO <==> color == COLOR_RECLAMADO
    ensures status == PENDIENTE <==> color == COLOR_PENDIENTE
    ensures status == VENCIDO <==> color == COLOR_VENCIDO
    ensures status == ALERTA_5_MESES <==> color == COLOR_ALERTA
  {
    if status == RECLAMADO then COLOR_RECLAMADO
    else if status == PENDIENTE then COLOR_PENDIENTE
    else if status == VENCIDO then COLOR_VENCIDO
    else if status == ALERTA_5_MESES then COLOR_ALERTA
    else COLOR_OTHER
  }

  /** `getStatusLabel`: a stored 'pendiente' bonus is shown as 'Activo' and an
      'alerta_5_meses' one as 'Por Vencer'; unknown states pass through. */
  function GetStatusLabel(status: string): (shown: string)
    ensures status == RECLAMADO ==> shown == "Reclamado"
    ensures status == PENDIENTE ==> shown == "Activo"
    ensures status == VENCIDO ==> shown == "Vencido"
    ensures status == ALERTA_5_MESES ==> shown == "Por Vencer"
    ensures !IsKnownStatus(status) ==> shown == status
  {
    if status == RECLAMADO then "Reclamado"
    else if status == PENDIENTE then "Activo"
    else if status == VENCIDO then "Vencido"
    else if status == ALERTA_5_MESES then "Por Vencer"
    else status
  }

  /** The four known states are told apart on screen: their labels are
      pairwise distinct, and so are their colours. */
  lemma KnownStatusesDistinguished(s1: string, s2: string)
    requires IsKnownStatus(s1) && IsKnownStatus(s2) && s1 != s2
    ensures GetStatusLabel(s1) != GetStatusLabel(s2)
    ensures GetStatusColor(s1) != GetStatusColor(s2)
  {
  }
}
