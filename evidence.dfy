/** The inventory: evidence, items and notes, each an append-only list, and the tab that
    selects which list the inventory panel shows. */
module Evidence {
  import opened Optional

  /** One collected record. Evidence and items carry a name; notes carry a title instead,
      so both are optional. The description stands for a note's content as well. */
  datatype Entry = Entry(id: string, name: Option<string>, title: Option<string>,
                         description: string, collectedAt: real)

  /** What the inventory panel shows for the current tab. The tab switch has no default
      case, so an unknown tab leaves the list undefined and reading its length throws. */
  datatype Panel = NoItemsYet | Listing(entries: seq<Entry>) | Throws

  /** True iff some entry of the list has exactly this name (Array.prototype.some). */
  function Named(entries: seq<Entry>, itemName: string): (r: bool)
  {
    if entries == [] then false
    else entries[0].name == Some(itemName) || Named(entries[1..], itemName)
  }

  lemma {:induction false} NamedMeans(entries: seq<Entry>, itemName: string)
    ensures Named(entries, itemName) <==>
      exists i :: 0 <= i < |entries| && entries[i].name == Some(itemName)
  {
    if entries != [] {
      NamedMeans(entries[1..], itemName);
      if Named(entries[1..], itemName) {
        var i :| 0 <= i < |entries[1..]| && entries[1..][i].name == Some(itemName);
        assert entries[i + 1].name == Some(itemName);
      }
      if exists i :: 0 <= i < |entries| && entries[i].name == Some(itemName) {
        var i :| 0 <= i < |entries| && entries[i].name == Some(itemName);
        if i > 0 {
          assert entries[1..][i - 1].name == Some(itemName);
        }
      }
    }
  }

  /** Adding an entry keeps every name already present and adds the new entry's own. */
  lemma {:induction false} NamedAfterAppend(entries: seq<Entry>, e: Entry, itemName: string)
    ensures Named(entries + [e], itemName) <==> Named(entries, itemName) || e.name == Some(itemName)
  {
    NamedMeans(entries, itemName);
    NamedMeans(entries + [e], itemName);
    if Named(entries, itemName) {
      var i :| 0 <= i < |entries| && entries[i].name == Some(itemName);
      assert (entries + [e])[i] == entries[i];
    }
    if e.name == Some(itemName) {
      assert (entries + [e])[|entries|] == e;
    }
    if Named(entries + [e], itemName) {
      var i :| 0 <= i < |entries + [e]| && (entries + [e])[i].name == Some(itemName);
      if i < |entries| {
        assert entries[i] == (entries + [e])[i];
      }
    }
  }

  /** The panel for one tab and the three lists: the selected list, or the empty message,
      or a throw for a tab the switch does not know. */
  function PanelFor(tab: string, evidence: seq<Entry>, items: seq<Entry>, notes: seq<Entry>): (r: Panel)
    ensures r.Throws? <==> tab != "evidence" && tab != "items" && tab != "notes"
    ensures tab == "evidence" ==> r == (if evidence == [] then NoItemsYet else Listing(evidence))
    ensures tab == "items" ==> r == (if items == [] then NoItemsYet else Listing(items))
    ensures tab == "notes" ==> r == (if notes == [] then NoItemsYet else Listing(notes))
    ensures r.Listing? ==> r.entries != []
  {
    var selected :=
      if tab == "evidence" then Some(evidence)
      else if tab == "items" then Some(items)
      else if tab == "notes" then Some(notes)
      else None;
    match selected
    case None => Throws
    case Some(entries) => if |entries| == 0 then NoItemsYet else Listing(entries)
  }

  class EvidenceSystem {
    var evidence: seq<Entry>
    var items: seq<Entry>
    var notes: seq<Entry>
    var currentTab: string

    constructor ()
      ensures evidence == [] && items == [] && notes == []
      ensures currentTab == "evidence"
    {
      evidence, items, notes := [], [], [];
      currentTab := "evidence";
    }

    method CollectEvidence(evidenceItem: Entry)
      modifies this
      ensures evidence == old(evidence) + [evidenceItem]
      ensures items == old(items) && notes == old(notes) && currentTab == old(currentTab)
    {
      evidence := evidence + [evidenceItem];
    }

    method AddItem(item: Entry)
      modifies this
      ensures items == old(items) + [item]
      ensures evidence == old(evidence) && notes == old(notes) && currentTab == old(currentTab)
    {
      items := items + [item];
    }

    method AddNote(note: Entry)
      modifies this
      ensures notes == old(notes) + [note]
      ensures evidence == old(evidence) && items == old(items) && currentTab == old(currentTab)
    {
      notes := notes + [note];
    }

    /** True iff some item carries exactly this name. */
    function HasItem(itemName: string): (r: bool)
      reads this
      ensures r <==> exists i :: 0 <= i < |items| && items[i].name == Some(itemName)
    {
      NamedMeans(items, itemName);
      Named(items, itemName)
    }

    /** What the inventory panel shows for the current tab (see PanelFor). */
    function Shown(): Panel
      reads this
    {
      PanelFor(currentTab, evidence, items, notes)
    }
  }

  /** A fresh inventory shows the empty message on its starting tab. */
  lemma FreshInventoryIsEmpty()
    ensures PanelFor("evidence", [], [], []) == NoItemsYet
  {
  }

  /** On the evidence tab, collecting evidence always leaves the panel listing it last. */
  lemma CollectedEvidenceIsListed(evidence: seq<Entry>, items: seq<Entry>, notes: seq<Entry>, e: Entry)
    ensures var p := PanelFor("evidence", evidence + [e], items, notes);
      p.Listing? && p.entries[|p.entries| - 1] == e && p.entries[..|evidence|] == evidence
  {
  }
}
