/** The nurses page (src/pages/Nurses.tsx): search filter and the add/edit modal state. */
module NursesPage {
  import opened Wrappers
  import opened Types
  import opened Seqs
  import opened Text
  import opened DataContext

  /** The row filter: name, department or email includes the search term, all lower-cased. */
  function NurseMatch(term: string, lower: string -> string): Nurse -> bool {
    (n: Nurse) => Matches(lower, n.name, term) || Matches(lower, n.department, term) ||
                  Matches(lower, n.email, term)
  }

  function FilteredNurses(nurses: seq<Nurse>, term: string, lower: string -> string): (r: seq<Nurse>)
    ensures IsSubsequence(r, nurses)
    ensures forall n :: n in r <==> n in nurses && NurseMatch(term, lower)(n)
    ensures forall i :: 0 <= i < |nurses| ==>
              multiset(r)[nurses[i]] == if NurseMatch(term, lower)(nurses[i]) then multiset(nurses)[nurses[i]] else 0
  {
    FilterIsSubsequence(nurses, NurseMatch(term, lower));
    FilterMultiplicity(nurses, NurseMatch(term, lower));
    Filter(nurses, NurseMatch(term, lower))
  }

  /** An empty search box lists every nurse, in store order. */
  lemma EmptySearchKeepsAllNurses(nurses: seq<Nurse>, lower: string -> string)
    requires lower("") == ""
    ensures FilteredNurses(nurses, "", lower) == nurses
  {
    forall i | 0 <= i < |nurses|
      ensures NurseMatch("", lower)(nurses[i])
    {
      EmptyTermMatches(lower, nurses[i].name);
    }
    FilterKeepsAll(nurses, NurseMatch("", lower));
  }

  const AddTitle := "Add New Nurse"
  const EditTitle := "Edit Nurse"

  /** The page's `isAddModalOpen` and `editingNurse` state. */
  class NursesPageState {
    var isAddModalOpen: bool
    var editingNurse: Option<Nurse>

    /** A nurse is being edited only while the modal is open. */
    predicate Valid()
      reads this
    {
      !isAddModalOpen ==> editingNurse.None?
    }

    constructor ()
      ensures Valid()
      ensures !isAddModalOpen && editingNurse == None
    {
      isAddModalOpen, editingNurse := false, None;
    }

    /** The modal's title: the add title exactly when no nurse is being edited. */
    function ModalTitle(): (title: string)
      reads this
      ensures title == AddTitle <==> editingNurse.None?
      ensures title == EditTitle <==> editingNurse.Some?
    {
      if editingNurse.Some? then EditTitle else AddTitle
    }

    /** `handleEdit`: the modal opens on the given nurse. */
    method HandleEdit(nurse: Nurse)
      modifies this
      ensures Valid()
      ensures isAddModalOpen && editingNurse == Some(nurse)
      ensures ModalTitle() == EditTitle
    {
      editingNurse := Some(nurse);
      isAddModalOpen := true;
    }

    /** The "Add Nurse" button: opens the modal and leaves `editingNurse` alone. */
    method OpenAdd()
      requires Valid()
      modifies this
      ensures Valid()
      ensures isAddModalOpen && editingNurse == old(editingNurse)
      ensures !old(isAddModalOpen) ==> ModalTitle() == AddTitle
    {
      isAddModalOpen := true;
    }

    /** `handleCloseModal`: closes the modal and forgets the edited nurse. */
    method HandleCloseModal()
      modifies this
      ensures Valid()
      ensures !isAddModalOpen && editingNurse == None
    {
      isAddModalOpen := false;
      editingNurse := None;
    }

    /** `handleDelete`: the store is touched only when the user confirms. */
    method HandleDelete(store: DataStore, id: Id, confirmed: bool)
      modifies store
      ensures confirmed ==> store.nurses == RemoveId(old(store.nurses), NurseId, id) &&
                            store.calls == old(store.calls) + [DeleteNurseCall(id)]
      ensures !confirmed ==> store.nurses == old(store.nurses) && store.calls == old(store.calls)
      ensures store.patients == old(store.patients) && store.doctors == old(store.doctors)
      ensures store.deliveries == old(store.deliveries)
    {
      if confirmed {
        store.DeleteNurse(id);
      }
    }
  }
}
