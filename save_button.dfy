/** The save button of the listing detail page: a toggle over the
    saved-properties store plus the snackbar that confirms it. */
module SaveButton {
  import opened Listings
  import opened SavedProperties

  const RemovedMessage := "Property removed from saved properties"
  const SavedMessage := "Property saved successfully"

  class SavePropertyButton {
    const store: SavedPropertiesStore
    const property: Listing
    var snackbarOpen: bool
    var snackbarMessage: string

    constructor (store: SavedPropertiesStore, property: Listing)
      ensures this.store == store && this.property == property
      ensures !snackbarOpen && snackbarMessage == ""
    {
      this.store := store;
      this.property := property;
      snackbarOpen := false;
      snackbarMessage := "";
    }

    /** `handleSaveToggle`: remove the listing if it is saved, add it if it is
        not, say which in the snackbar and open it. */
    method HandleSaveToggle()
      modifies this, store
      ensures old(store.IsPropertySaved(property.Id)) ==>
        store.saved == Remove(old(store.saved), property.Id) && snackbarMessage == RemovedMessage
      ensures !old(store.IsPropertySaved(property.Id)) ==>
        store.saved == old(store.saved) + [property] && snackbarMessage == SavedMessage
      ensures store.IsPropertySaved(property.Id) == !old(store.IsPropertySaved(property.Id))
      ensures Remove(store.saved, property.Id) == Remove(old(store.saved), property.Id)
      ensures store.Synced()
      ensures UniqueIds(old(store.saved)) ==> UniqueIds(store.saved)
      ensures snackbarOpen
    {
      var isSaved := store.IsPropertySaved(property.Id);
      if isSaved {
        RemoveIdempotent(store.saved, property.Id);
        store.RemoveProperty(property.Id);
        snackbarMessage := RemovedMessage;
      } else {
        AddKeepsOthers(store.saved, property);
        AddThenSaved(store.saved, property);
        store.AddProperty(property);
        snackbarMessage := SavedMessage;
      }
      snackbarOpen := true;
    }
  }
}
