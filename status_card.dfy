/** The category icon shown on a spot's status card. */
module StatusCard {

  /** `getCategoryIcon`: a fixed symbol per known category, a map pin otherwise. */
  function CategoryIcon(category: string): (icon: string)
    ensures icon != ""
    ensures category == "Fast Food" || category == "Canteen" <==> icon == "fork.knife"
    ensures category == "Parking" <==> icon == "car.fill"
    ensures category == "Terminal" <==> icon == "bus.fill"
    ensures category == "Study Spot" <==> icon == "book.fill"
    ensures category == "Facility" <==> icon == "building.columns.fill"
    ensures icon == "mappin.circle.fill" <==>
      category !in {"Fast Food", "Canteen", "Parking", "Terminal", "Study Spot", "Facility"}
  {
    if category == "Fast Food" || category == "Canteen" then "fork.knife"
    else if category == "Parking" then "car.fill"
    else if category == "Terminal" then "bus.fill"
    else if category == "Study Spot" then "book.fill"
    else if category == "Facility" then "building.columns.fill"
    else "mappin.circle.fill"
  }

  lemma UnlistedCategoriesGetThePin()
    ensures CategoryIcon("Cafe") == "mappin.circle.fill"
    ensures CategoryIcon("Laundry") == "mappin.circle.fill"
    ensures CategoryIcon("Marketplace") == "mappin.circle.fill"
  {
  }
}
