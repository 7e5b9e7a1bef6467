/** The status and priority badge: the colour classes looked up from its
    label text. */
module Badge {
  import opened Js

  const Gray := "bg-gray-100 text-gray-700 border-gray-300"

  /** `STATUS_COLORS[name]` */
  function StatusColor(name: string): (r: Option<string>)
    ensures r.Some? <==> name in {"Open", "In Progress", "Closed", "In Review"}
  {
    if name == "Open" then Some("bg-blue-100 text-blue-700 border-blue-400")
    else if name == "In Progress" then Some("bg-yellow-100 text-yellow-800 border-yellow-400")
    else if name == "Closed" then Some("bg-green-100 text-green-700 border-green-400")
    else if name == "In Review" then Some("bg-purple-100 text-purple-700 border-purple-400")
    else None
  }

  /** `PRIORITY_COLORS[name]` */
  function PriorityColor(name: string): (r: Option<string>)
    ensures r.Some? <==> name in {"High", "Medium", "Low"}
  {
    if name == "High" then Some("bg-red-100 text-red-700 border-red-400")
    else if name == "Medium" then Some("bg-yellow-100 text-yellow-800 border-yellow-400")
    else if name == "Low" then Some("bg-gray-100 text-gray-700 border-gray-400")
    else None
  }

  /** `colorClass` as written: `||` binds tighter than `?:`, so the gray
      fallback belongs to the status branch only. None is `undefined`. */
  function ColorClass(name: string, kind: string): Option<string>
  {
    if kind == "priority" then PriorityColor(name)
    else if StatusColor(name).Some? then StatusColor(name) else Some(Gray)
  }

  /** The colour class with the fallback applied to both branches. */
  function IntendedColorClass(name: string, kind: string): (r: string)
    ensures kind == "priority" && PriorityColor(name).Some? ==> r == PriorityColor(name).value
    ensures kind != "priority" && StatusColor(name).Some? ==> r == StatusColor(name).value
    ensures kind == "priority" && PriorityColor(name).None? ==> r == Gray
    ensures kind != "priority" && StatusColor(name).None? ==> r == Gray
  {
    if kind == "priority" then
      (if PriorityColor(name).Some? then PriorityColor(name).value else Gray)
    else if StatusColor(name).Some? then StatusColor(name).value else Gray
  }

  /** The class attribute of the badge. */
  function ClassName(name: string, kind: string): string
  {
    var c := ColorClass(name, kind);
    "inline-flex items-center gap-1 px-3 py-1 rounded-full border font-semibold text-xs shadow-sm "
      + if c.Some? then c.value else "undefined"
  }

  /** A known label gets its table entry; an unknown status gets the gray
      default; an unknown priority gets no colour at all, and its class
      attribute ends in the word 'undefined'. */
  lemma ColorClassSpec(name: string, kind: string)
    ensures kind == "priority" ==> (ColorClass(name, kind).Some? <==> name in {"High", "Medium", "Low"})
    ensures kind == "priority" && name in {"High", "Medium", "Low"} ==>
      ColorClass(name, kind) == PriorityColor(name) == Some(IntendedColorClass(name, kind))
    ensures kind != "priority" ==> ColorClass(name, kind) == Some(IntendedColorClass(name, kind))
    ensures kind != "priority" && name !in {"Open", "In Progress", "Closed", "In Review"} ==>
      ColorClass(name, kind) == Some(Gray)
    ensures kind == "priority" && name !in {"High", "Medium", "Low"} ==>
      var s := ClassName(name, kind); |s| >= 9 && s[|s| - 9..] == "undefined"
  {
  }

  /** The badge differs from the intended lookup exactly on the priority
      labels missing from the table: those get no colour as written and gray
      as intended. */
  lemma UnknownPriorityUncoloured(name: string, kind: string)
    ensures kind == "priority" && PriorityColor(name).None? ==>
      ColorClass(name, kind) == None && IntendedColorClass(name, kind) == Gray
    ensures ColorClass(name, kind) != Some(IntendedColorClass(name, kind)) <==>
      kind == "priority" && PriorityColor(name).None?
  {
  }
}
