/**
 * The trips page's two classifications: the colour of a trip's planning
 * progress bar, from its percentage, and the colour of its status badge,
 * from its status word.
 */
module ViajesPage {

  datatype Tone = Green | Blue | Yellow | Gray

  /** The bucket a progress percentage falls in. */
  function ProgressTone(progreso: int): (t: Tone)
    ensures t == Green <==> progreso == 100
    ensures t == Blue <==> progreso >= 70 && progreso != 100
    ensures t == Yellow <==> 40 <= progreso < 70
    ensures t == Gray <==> progreso < 40
  {
    if progreso == 100 then Green
    else if progreso >= 70 then Blue
    else if progreso >= 40 then Yellow
    else Gray
  }

  /** The progress bar's colour class for a bucket. */
  function BarClass(t: Tone): (cls: string)
  {
    match t
    case Green => "bg-green-500"
    case Blue => "bg-blue-500"
    case Yellow => "bg-yellow-500"
    case Gray => "bg-gray-400"
  }

  /** The status badge's colour classes for a bucket. */
  function BadgeClass(t: Tone): (cls: string)
  {
    match t
    case Green => "bg-green-100 text-green-800"
    case Yellow => "bg-yellow-100 text-yellow-800"
    case Gray => "bg-gray-100 text-gray-800"
    case Blue => "bg-blue-100 text-blue-800"
  }

  /** Different buckets never share a class, so a class names its bucket. */
  lemma ClassesAreDistinct(t: Tone, u: Tone)
    ensures BarClass(t) == BarClass(u) ==> t == u
    ensures BadgeClass(t) == BadgeClass(u) ==> t == u
  {
  }

  /** The class of the progress bar for a percentage. */
  function ProgressBarClass(progreso: int): (cls: string)
    ensures cls == "bg-green-500" <==> progreso == 100
    ensures cls == "bg-blue-500" <==> progreso >= 70 && progreso != 100
    ensures cls == "bg-yellow-500" <==> 40 <= progreso < 70
    ensures cls == "bg-gray-400" <==> progreso < 40
  {
    BarClass(ProgressTone(progreso))
  }

  /** The order of the buckets as progress grows. */
  function Rank(t: Tone): (n: nat)
  {
    match t
    case Gray => 0
    case Yellow => 1
    case Blue => 2
    case Green => 3
  }

  /** Over 0..100 more progress never gives a lower bucket. */
  lemma ProgressToneMonotone(p: int, q: int)
    requires 0 <= p <= q <= 100
    ensures Rank(ProgressTone(p)) <= Rank(ProgressTone(q))
  {
  }

  /** Above 100 the order breaks: only exactly 100 is green. */
  lemma AboveHundredIsBlue(p: int)
    requires p > 100
    ensures ProgressTone(p) == Blue && Rank(ProgressTone(p)) < Rank(ProgressTone(100))
  {
  }

  /** The colour of a status badge; any status the page does not name is blue. */
  function StatusTone(estado: string): (t: Tone)
    ensures estado == "Próximo" ==> t == Green
    ensures estado == "Planificando" ==> t == Yellow
    ensures estado == "Borrador" ==> t == Gray
    ensures t == Blue <==> estado !in {"Próximo", "Planificando", "Borrador"}
  {
    if estado == "Próximo" then Green
    else if estado == "Planificando" then Yellow
    else if estado == "Borrador" then Gray
    else Blue
  }

  /** The classes of the status badge for a status word. */
  function StatusBadgeClass(estado: string): (cls: string)
    ensures estado == "Próximo" ==> cls == "bg-green-100 text-green-800"
    ensures estado == "Planificando" ==> cls == "bg-yellow-100 text-yellow-800"
    ensures estado == "Borrador" ==> cls == "bg-gray-100 text-gray-800"
    ensures cls == "bg-blue-100 text-blue-800" <==> estado !in {"Próximo", "Planificando", "Borrador"}
  {
    BadgeClass(StatusTone(estado))
  }

  /** A completed trip, the one status the page lists without its own branch, gets the blue badge. */
  lemma CompletedIsBlue()
    ensures StatusTone("Completado") == Blue
  {
  }
}
