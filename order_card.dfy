/** The order card: the backend status is mapped to one of the card's five
    statuses (unknown values pass through and then fall back to
    "pending"), at most two lines are previewed, and the rest are counted. */
module OrderCard {
  import opened Common

  datatype BadgeVariant = Secondary | Default | Outline

  datatype StatusInfo = StatusInfo(badgeLabel: string, variant: BadgeVariant, color: string)

  /** `STATUS_MAP`: the backend statuses the card knows. */
  function StatusMap(status: string): Option<string> {
    if status == "PENDING" then Some("pending")
    else if status == "PAID" then Some("processing")
    else if status == "SHIPPED" then Some("shipped")
    else if status == "CANCELLED" then Some("cancelled")
    else None
  }

  /** `statusConfig`: the card's own statuses. */
  function StatusConfig(key: string): Option<StatusInfo> {
    if key == "pending" then
      Some(StatusInfo("Pendiente", Secondary, "bg-yellow-100 text-yellow-800 dark:bg-yellow-900 dark:text-yellow-100"))
    else if key == "processing" then
      Some(StatusInfo("Procesando", Default, "bg-blue-100 text-blue-800 dark:bg-blue-900 dark:text-blue-100"))
    else if key == "shipped" then
      Some(StatusInfo("Enviado", Outline, "bg-purple-100 text-purple-800 dark:bg-purple-900 dark:text-purple-100"))
    else if key == "delivered" then
      Some(StatusInfo("Entregado", Outline, "bg-emerald-100 text-emerald-800 dark:bg-emerald-900 dark:text-emerald-100"))
    else if key == "cancelled" then
      Some(StatusInfo("Cancelado", Outline, "bg-red-100 text-red-800 dark:bg-red-900 dark:text-red-100"))
    else None
  }

  predicate IsCardKey(key: string) {
    key in ["pending", "processing", "shipped", "delivered", "cancelled"]
  }

  /** `STATUS_MAP[status] ?? status`. */
  function MappedStatus(status: string): string {
    StatusMap(status).GetOr(status)
  }

  /** `statusConfig[mappedStatus] ?? statusConfig.pending`. */
  function StatusInfoFor(status: string): (info: StatusInfo)
    ensures StatusMap(status).Some? ==> StatusConfig(StatusMap(status).value) == Some(info)
    ensures IsCardKey(status) ==> StatusConfig(status) == Some(info)
    ensures StatusMap(status).None? && !IsCardKey(status) ==> StatusConfig("pending") == Some(info)
  {
    BackendKeysConfigured(status);
    CardKeysUnmapped(status);
    StatusConfig(MappedStatus(status)).GetOr(StatusConfig("pending").value)
  }

  /** Every backend status maps to a configured card status. */
  lemma BackendKeysConfigured(status: string)
    ensures StatusMap(status).Some? ==> StatusConfig(StatusMap(status).value).Some?
  {
    if status == "PENDING" {
      assert StatusConfig("pending").Some?;
    } else if status == "PAID" {
      assert StatusConfig("processing").Some?;
    } else if status == "SHIPPED" {
      assert StatusConfig("shipped").Some?;
    } else if status == "CANCELLED" {
      assert StatusConfig("cancelled").Some?;
    }
  }

  /** No card status is also a backend status. */
  lemma CardKeysUnmapped(status: string)
    ensures IsCardKey(status) ==> StatusMap(status).None? && StatusConfig(status).Some?
  {
    if status == "pending" {
      assert StatusMap("pending").None?;
    } else if status == "processing" {
      assert StatusMap("processing").None?;
    } else if status == "shipped" {
      assert StatusMap("shipped").None?;
    } else if status == "delivered" {
      assert StatusMap("delivered").None?;
    } else if status == "cancelled" {
      assert StatusMap("cancelled").None?;
    }
  }

  /** The four backend statuses land on their card statuses. */
  lemma BackendStatuses()
    ensures MappedStatus("PENDING") == "pending" && StatusInfoFor("PENDING").badgeLabel == "Pendiente"
    ensures MappedStatus("PAID") == "processing" && StatusInfoFor("PAID").badgeLabel == "Procesando"
    ensures MappedStatus("SHIPPED") == "shipped" && StatusInfoFor("SHIPPED").badgeLabel == "Enviado"
    ensures MappedStatus("CANCELLED") == "cancelled" && StatusInfoFor("CANCELLED").badgeLabel == "Cancelado"
  {
  }

  /** A status that is already a card status passes through unchanged. */
  lemma CardStatusPassesThrough(status: string)
    requires IsCardKey(status)
    ensures MappedStatus(status) == status
    ensures StatusInfoFor(status) == StatusConfig(status).value
  {
  }

  /** Anything else is shown as pending. */
  lemma UnknownFallsBackToPending(status: string)
    requires StatusMap(status).None? && !IsCardKey(status)
    ensures StatusInfoFor(status) == StatusConfig("pending").value
  {
  }

  /** The card always has a configuration: its badge label is one of the five. */
  lemma StatusInfoAlwaysKnown(status: string)
    ensures StatusInfoFor(status).badgeLabel in ["Pendiente", "Procesando", "Enviado", "Entregado", "Cancelado"]
  {
  }

  /** `items.slice(0, 2)`. */
  function Preview<T>(items: seq<T>): (r: seq<T>)
    ensures |r| == Min(2, |items|)
    ensures r == items[..|r|]
  {
    SliceFromStart(items, 2);
    Slice(items, 0, 2)
  }

  /** `+{n} producto{s} más`, shown when `items.length > 2`: the count and suffix. */
  function OverflowLabel<T>(items: seq<T>): (r: Option<(int, string)>)
    ensures r.Some? <==> |items| > 2
    ensures r.Some? ==> r.value.0 == |items| - 2 && (r.value.1 == "s" <==> |items| > 3)
  {
    if |items| > 2 then Some((|items| - 2, PluralSuffix(|items| - 2))) else None
  }

  /** `{n} producto{s}`: the count and suffix of the footer. */
  function CountLabel<T>(items: seq<T>): (r: (int, string))
    ensures r.0 == |items| && (r.1 == "s" <==> |items| > 1)
  {
    (|items|, PluralSuffix(|items|))
  }

  /** Preview and overflow account for every line: shown plus counted is the total. */
  lemma PreviewPlusOverflow<T>(items: seq<T>)
    ensures |Preview(items)| + (if OverflowLabel(items).Some? then OverflowLabel(items).value.0 else 0) == |items|
  {
  }
}
