/**
 * The packages pane: one list of content packages
 * (internal/ui/components/packagespane/contentpackage/package.go).
 */
module ContentPackagePane {
  import opened Wrappers
  import opened ApiTypes
  import opened Messages
  import opened ListWidget

  /** The list item wrapping one package. */
  datatype Item = Item(pkg: ContentPackage)

  /** One item per package, in the given order. */
  function ItemsOf(packages: seq<ContentPackage>): (items: seq<Item>)
    ensures |items| == |packages|
  {
    seq(|packages|, i requires 0 <= i < |packages| => Item(packages[i]))
  }

  /** packagesToList: wraps the packages one by one. */
  method PackagesToList(packages: seq<ContentPackage>) returns (items: seq<Item>)
    ensures items == ItemsOf(packages)
  {
    items := [];
    for i := 0 to |packages|
      invariant |items| == i
      invariant forall j :: 0 <= j < i ==> items[j] == Item(packages[j])
    {
      items := items + [Item(packages[i])];
    }
  }

  /** How the pane reacts to a message: its new list and the commands it returns (none). */
  function Next(packages: List<Item>, msg: Msg): (List<Item>, multiset<Cmd>) {
    match msg
    case KeyMsg(key) => (packages.Update(key), multiset{})
    case ContentPackagesMsg(fetched) => (packages.SetItems(ItemsOf(fetched)), multiset{})
    case _ => (packages, multiset{})
  }

  /** The keys of the package attributes, in display order. */
  const PackageAttributeKeys: seq<string> :=
    ["ID", "Version", "Name", "Short text", "Vendor", "Mode", "Created by", "Created at", "Modified by", "Modified at"]

  /**
   * The attributes shown for a package: exactly ten pairs with the keys
   * above, the string fields copied verbatim and the two timestamps rendered.
   */
  function PackageAttributes(pkg: ContentPackage, timeText: TimeText): (attributes: seq<Attribute>)
    ensures KeysOf(attributes) == PackageAttributeKeys
    ensures attributes[0].value == pkg.id && attributes[1].value == pkg.version
    ensures attributes[2].value == pkg.name && attributes[3].value == pkg.shortText
    ensures attributes[4].value == pkg.vendor && attributes[5].value == pkg.mode
    ensures attributes[6].value == pkg.createdBy && attributes[7].value == timeText(pkg.creationDate)
    ensures attributes[8].value == pkg.modifiedBy && attributes[9].value == timeText(pkg.modifiedDate)
  {
    var attributes := [
      Attribute("ID", pkg.id),
      Attribute("Version", pkg.version),
      Attribute("Name", pkg.name),
      Attribute("Short text", pkg.shortText),
      Attribute("Vendor", pkg.vendor),
      Attribute("Mode", pkg.mode),
      Attribute("Created by", pkg.createdBy),
      Attribute("Created at", timeText(pkg.creationDate)),
      Attribute("Modified by", pkg.modifiedBy),
      Attribute("Modified at", timeText(pkg.modifiedDate))
    ];
    assert KeysOf(attributes) == PackageAttributeKeys;
    attributes
  }

  /** SelectedPackageID: nil when nothing is selected, else the selected package's ID. */
  function SelectedPackageID(packages: List<Item>): (id: Option<string>)
    ensures id.None? <==> packages.Selected().None?
    ensures id.Some? ==> id.value == packages.Selected().value.pkg.id
  {
    match packages.Selected()
    case None => None
    case Some(item) => Some(item.pkg.id)
  }

  /** SelectedPackageAttributes: nil when nothing is selected, else the selected package's attributes. */
  function SelectedPackageAttributes(packages: List<Item>, timeText: TimeText): (attributes: Option<seq<Attribute>>)
    ensures attributes.None? <==> packages.Selected().None?
    ensures attributes.Some? ==> attributes.value == PackageAttributes(packages.Selected().value.pkg, timeText)
  {
    match packages.Selected()
    case None => None
    case Some(item) => Some(PackageAttributes(item.pkg, timeText))
  }

  class Model {
    var packages: List<Item>

    /** New: an empty list. */
    constructor ()
      ensures packages == Empty()
    {
      packages := Empty();
    }

    /** Init: the package fetch. */
    method Init() returns (cmds: multiset<Cmd>)
      ensures cmds == multiset{FetchPackages}
    {
      cmds := multiset{FetchPackages};
    }

    method Update(msg: Msg) returns (cmds: multiset<Cmd>)
      modifies this
      ensures (packages, cmds) == Next(old(packages), msg)
    {
      cmds := multiset{};
      match msg {
        case KeyMsg(key) =>
          if key == Up || key == Down {
            packages := packages.Update(key);
          }
        case ContentPackagesMsg(fetched) =>
          var items := PackagesToList(fetched);
          packages := packages.SetItems(items);
        case _ =>
      }
    }
  }

  /** A packages message replaces the whole list: one item per package, in message order. */
  lemma PackagesMessageReplacesList(packages: List<Item>, fetched: seq<ContentPackage>)
    ensures var l := Next(packages, ContentPackagesMsg(fetched)).0;
      |l.items| == |fetched| && (forall i :: 0 <= i < |fetched| ==> l.items[i].pkg == fetched[i]) && l.Valid()
  {
  }

  /** Up and Down only move the cursor; every other key changes nothing. */
  lemma KeysOnlyMoveCursor(packages: List<Item>, key: Key)
    ensures Next(packages, KeyMsg(key)).0.items == packages.items
    ensures key != Up && key != Down ==> Next(packages, KeyMsg(key)).0 == packages
    ensures Next(packages, KeyMsg(key)).1 == multiset{}
  {
  }
}
