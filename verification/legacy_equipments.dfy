/** The older equipment page: a fixed list of equipments filtered on the
    client by serial number and type. */
module LegacyEquipments {
  import opened Strings
  import opened Seqs

  /** An equipment of the page's built-in list; `serial` is `NumSerie` and
      `tipping` is `NumTombamento`; the movement date is left out. */
  datatype Equipment = Equipment(id: int, kind: string, serial: string, tipping: string)

  /** How a chosen type is compared with an equipment's type: as written
      the whole strings must be equal; `TypePrefix` accepts a type that
      begins with the chosen category. */
  datatype TypeTest = WholeType | TypePrefix

  predicate TypeAccepts(test: TypeTest, kind: string, searchType: string)
  {
    match test
    case WholeType => kind == searchType
    case TypePrefix => StartsWith(kind, searchType)
  }

  /** The page's predicate: the serial number includes the search term, and
      the type is unconstrained (`''`) or accepted by the type test. */
  predicate Matches(e: Equipment, searchTerm: string, searchType: string, test: TypeTest)
  {
    Includes(e.serial, searchTerm) && (searchType == "" || TypeAccepts(test, e.kind, searchType))
  }

  /** `filteredEquipment`: every list item satisfying `Matches`, each with all
      of its copies, in order. */
  function FilteredEquipment(list: seq<Equipment>, searchTerm: string, searchType: string, test: TypeTest): (r: seq<Equipment>)
    ensures forall e :: multiset(r)[e] == if Matches(e, searchTerm, searchType, test) then multiset(list)[e] else 0
    ensures forall e :: e in r <==> e in list && Matches(e, searchTerm, searchType, test)
    ensures IsSubsequence(r, list)
  {
    if |list| == 0 then []
    else
      var rest := FilteredEquipment(list[1..], searchTerm, searchType, test);
      assert list == [list[0]] + list[1..];
      if Matches(list[0], searchTerm, searchType, test) then [list[0]] + rest else rest
  }

  /** Every result's serial contains the term as a substring, and its type is
      the chosen one whenever a type is chosen. */
  lemma ResultsMatch(list: seq<Equipment>, searchTerm: string, searchType: string)
    ensures forall e :: e in FilteredEquipment(list, searchTerm, searchType, WholeType) ==>
      (exists i :: OccursAt(e.serial, searchTerm, i))
      && (searchType != "" ==> e.kind == searchType)
  {
    forall e | e in FilteredEquipment(list, searchTerm, searchType, WholeType)
      ensures exists i :: OccursAt(e.serial, searchTerm, i)
    {
      IncludesIffOccurs(e.serial, searchTerm);
    }
  }

  /** With an empty term and no type chosen the whole list is shown. */
  lemma {:induction false} EmptySearchShowsAll(list: seq<Equipment>, test: TypeTest)
    ensures FilteredEquipment(list, "", "", test) == list
  {
    if |list| > 0 {
      EmptySearchShowsAll(list[1..], test);
    }
  }

  /** The page's built-in equipment list. */
  const EquipmentList: seq<Equipment> := [
    Equipment(1, "Monitor LG 22MK400H", "123456789", "ABC123456"),
    Equipment(2, "Estabilizador 16520", "987654321", "DEF654321"),
    Equipment(3, "Monitor Dell 1080p24", "246810121", "GHI789456"),
    Equipment(4, "Notebook Galaxy Book2", "135792468", "JKL123789"),
    Equipment(5, "Impressora Hp Ink 416", "369121518", "MNO456123"),
    Equipment(5, "Monitor Dell 1080p24", "012345678", "R42KXD546"),
    Equipment(6, "Teclado Sem Fio Logitech", "124680246", "R42KXD546"),
    Equipment(7, "Teclado Sem Fio Logitech", "1246802468", "VZX231SD6"),
    Equipment(8, "Mouse Óptico HP", "999999999", "ABC098765"),
    Equipment(9, "Notebook Lenovo Thinkpad", "147258369", "YUT321XYZ"),
    Equipment(10, "Monitor LG 4K UHD", "222222222", "FDS789REW"),
    Equipment(11, "Impressora Epson EcoTank", "777777777", "IOP456QWE")]

  /** The values of the page's type select; `''` is "Todos". */
  const TypeOptions: seq<string> := ["", "Monitor", "Teclado", "Mouse", "Notebook", "Impressora"]

  /** As written, choosing any type in the select empties the list, whatever
      the search term: every option is shorter than every built-in type, so
      no whole-string comparison succeeds. */
  lemma TypeSelectMatchesNothing(searchTerm: string)
    ensures forall t :: t in TypeOptions && t != "" ==>
      FilteredEquipment(EquipmentList, searchTerm, t, WholeType) == []
  {
    forall t | t in TypeOptions && t != ""
      ensures FilteredEquipment(EquipmentList, searchTerm, t, WholeType) == []
    {
      assert forall e :: e in EquipmentList ==> |t| < |e.kind|;
      NoneMatch(EquipmentList, searchTerm, t);
    }
  }

  lemma {:induction false} NoneMatch(list: seq<Equipment>, searchTerm: string, t: string)
    requires forall e :: e in list ==> e.kind != t
    requires t != ""
    ensures FilteredEquipment(list, searchTerm, t, WholeType) == []
  {
    if |list| > 0 {
      assert list[0] in list;
      NoneMatch(list[1..], searchTerm, t);
    }
  }

  /** Compared as a category, every option of the select finds at least one
      equipment of the built-in list. */
  lemma EveryCategoryFound()
    ensures forall t :: t in TypeOptions ==> FilteredEquipment(EquipmentList, "", t, TypePrefix) != []
  {
    forall t | t in TypeOptions
      ensures FilteredEquipment(EquipmentList, "", t, TypePrefix) != []
    {
      var k := CategoryWitness(t);
      assert EquipmentList[k] in EquipmentList;
      assert Matches(EquipmentList[k], "", t, TypePrefix);
    }
  }

  /** The position of an equipment of the built-in list whose type begins
      with the option. */
  function CategoryWitness(t: string): (k: nat)
    requires t in TypeOptions
    ensures k < |EquipmentList| && StartsWith(EquipmentList[k].kind, t)
  {
    if t == "" || t == "Monitor" then
      assert EquipmentList[0].kind[..7] == "Monitor"; 0
    else if t == "Teclado" then
      assert EquipmentList[6].kind[..7] == "Teclado"; 6
    else if t == "Mouse" then
      assert EquipmentList[8].kind[..5] == "Mouse"; 8
    else if t == "Notebook" then
      assert EquipmentList[3].kind[..8] == "Notebook"; 3
    else
      assert EquipmentList[4].kind[..10] == "Impressora"; 4
  }
}
