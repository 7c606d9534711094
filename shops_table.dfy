/** The shops table: an in-memory list seeded with three sample shops, edited
    through a dialog and pruned by delete; nothing is sent to the backend. */
module ShopsTable {
  import opened Js
  import opened ListEdits

  datatype ShopStatus = Active | Inactive | Maintenance

  datatype Shop = Shop(
    id: string, name: string, description: string, domain: string, status: ShopStatus,
    owner: string, createdAt: string, updatedAt: string, productsCount: int, revenue: int)

  function ShopId(s: Shop): string {
    s.id
  }

  /** The three sample shops the table starts with. */
  function MockShops(): (shops: seq<Shop>)
    ensures |shops| == 3 && UniqueKeys(shops, ShopId)
    ensures forall i :: 0 <= i < |shops| ==> shops[i].id in MockIds()
  {
    [Shop("1", "Tech Gadgets Store", "Premium electronics and gadgets", "techgadgets.com", Active,
          "John Smith", "2024-01-15", "2024-01-20", 150, 25000),
     Shop("2", "Fashion Boutique", "Trendy fashion and accessories", "fashionboutique.com", Active,
          "Sarah Johnson", "2024-01-18", "2024-01-18", 89, 18000),
     Shop("3", "Home & Garden", "Everything for your home and garden", "homegarden.com", Maintenance,
          "Mike Wilson", "2024-01-10", "2024-01-15", 234, 32000)]
  }

  function MockIds(): set<string> {
    {"1", "2", "3"}
  }

  datatype TextField = Name | Domain | Description

  class Table {
    var shops: seq<Shop>
    var editing: Option<Shop>
    var dialogOpen: bool

    /** Ids stay unique and every row is one of the sample shops: no operation adds a row. */
    ghost predicate Valid()
      reads this
    {
      && UniqueKeys(shops, ShopId)
      && |shops| <= 3
      && forall i :: 0 <= i < |shops| ==> shops[i].id in MockIds()
    }

    constructor ()
      ensures Valid()
      ensures shops == MockShops() && editing.None? && !dialogOpen
    {
      shops := MockShops();
      editing := None;
      dialogOpen := false;
    }

    /** `handleEdit(shop)`. */
    method HandleEdit(shop: Shop)
      requires Valid()
      modifies this
      ensures Valid()
      ensures editing == Some(shop) && dialogOpen && shops == old(shops)
    {
      editing := Some(shop);
      dialogOpen := true;
    }

    /** `handleDelete(id)`: drops every row with that id, keeping the others in order. */
    method HandleDelete(id: string)
      requires Valid()
      modifies this
      ensures Valid()
      ensures shops == Without(old(shops), id, ShopId)
      ensures forall i :: 0 <= i < |shops| ==> shops[i].id != id
      ensures editing == old(editing) && dialogOpen == old(dialogOpen)
    {
      WithoutKeepsUnique(shops, id, ShopId);
      WithoutMembers(shops, id, ShopId);
      shops := Without(shops, id, ShopId);
    }

    /** The Save button, `editingShop && handleSave(editingShop)`: with a shop being edited it
        replaces the row with that id and closes the dialog; without one it does nothing. */
    method Save()
      requires Valid()
      modifies this
      ensures Valid()
      ensures old(editing).None? ==> shops == old(shops) && editing.None? && dialogOpen == old(dialogOpen)
      ensures old(editing).Some? ==>
                shops == Replaced(old(shops), old(editing).value, ShopId) && editing.None? && !dialogOpen
    {
      if editing.Some? {
        ReplacedKeepsUnique(shops, editing.value, ShopId);
        ReplacedKeepsKeys(shops, editing.value, ShopId);
        shops := Replaced(shops, editing.value, ShopId);
        dialogOpen := false;
        editing := None;
      }
    }

    /** The name, domain and description inputs of the dialog. */
    method EditText(field: TextField, value: string)
      requires Valid() && editing.Some?
      modifies this
      ensures Valid()
      ensures editing == Some(match field
                              case Name => old(editing).value.(name := value)
                              case Domain => old(editing).value.(domain := value)
                              case Description => old(editing).value.(description := value))
      ensures shops == old(shops) && dialogOpen == old(dialogOpen)
    {
      editing := Some(match field
                      case Name => editing.value.(name := value)
                      case Domain => editing.value.(domain := value)
                      case Description => editing.value.(description := value));
    }

    /** The status select of the dialog. */
    method EditStatus(status: ShopStatus)
      requires Valid() && editing.Some?
      modifies this
      ensures Valid()
      ensures editing == Some(old(editing).value.(status := status))
      ensures shops == old(shops) && dialogOpen == old(dialogOpen)
    {
      editing := Some(editing.value.(status := status));
    }

    /** The Cancel button and the dialog's close request. */
    method CloseDialog()
      requires Valid()
      modifies this
      ensures Valid()
      ensures !dialogOpen && editing == old(editing) && shops == old(shops)
    {
      dialogOpen := false;
    }
  }

  /** Editing the name of a listed shop and saving changes that row only, in place. */
  lemma SaveChangesOneRow(shops: seq<Shop>, j: int, name: string)
    requires 0 <= j < |shops| && UniqueKeys(shops, ShopId)
    ensures Replaced(shops, shops[j].(name := name), ShopId) == shops[j := shops[j].(name := name)]
  {
    var r := Replaced(shops, shops[j].(name := name), ShopId);
    forall i | 0 <= i < |shops| ensures r[i] == shops[j := shops[j].(name := name)][i] {
      if i != j {
        if i < j { assert ShopId(shops[i]) != ShopId(shops[j]); }
        else { assert ShopId(shops[j]) != ShopId(shops[i]); }
      }
    }
  }

  /** Deleting a listed shop removes exactly that row. */
  lemma DeleteRemovesOneRow(shops: seq<Shop>, j: int)
    requires 0 <= j < |shops| && UniqueKeys(shops, ShopId)
    ensures Without(shops, shops[j].id, ShopId) == shops[..j] + shops[j + 1..]
  {
    forall i | 0 <= i < |shops| && i != j ensures ShopId(shops[i]) != ShopId(shops[j]) {
      if i < j { } else { }
    }
    WithoutUnique(shops, j, ShopId);
  }

  /** Deleting the second sample shop leaves the first and the third, in order. */
  lemma DeleteSecondSample()
    ensures Without(MockShops(), "2", ShopId) == [MockShops()[0], MockShops()[2]]
  {
    DeleteRemovesOneRow(MockShops(), 1);
    assert MockShops()[..1] + MockShops()[2..] == [MockShops()[0], MockShops()[2]];
  }
}
