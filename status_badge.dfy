/** `StatusBadge`: the colour classes of an order or product status. */
module StatusBadge {
  import opened Text

  const GREEN: string := "bg-green-100 text-green-800"
  const BLUE: string := "bg-blue-100 text-blue-800"
  const PURPLE: string := "bg-purple-100 text-purple-800"
  const YELLOW: string := "bg-yellow-100 text-yellow-800"
  const RED: string := "bg-red-100 text-red-800"
  const GRAY: string := "bg-gray-100 text-gray-800"

  const BADGE_CLASSES: string := "inline-flex px-3 py-1.5 text-xs font-semibold rounded-full "

  const ORDER_STATUSES: seq<string> := ["Delivered", "Processing", "Shipped", "Pending", "Cancelled"]
  const PRODUCT_STATUSES: seq<string> := ["In Stock", "Low Stock", "Out of Stock"]

  /** `type = "order"`. */
  function BadgeType(t: Option<string>): (r: string)
    ensures t.None? ==> r == "order"
    ensures t.Some? ==> r == t.value
  {
    if t.Some? then t.value else "order"
  }

  function OrderColor(status: string): string
  {
    if status == "Delivered" then GREEN
    else if status == "Processing" then BLUE
    else if status == "Shipped" then PURPLE
    else if status == "Pending" then YELLOW
    else if status == "Cancelled" then RED
    else GRAY
  }

  function ProductColor(status: string): string
  {
    if status == "In Stock" then GREEN
    else if status == "Low Stock" then YELLOW
    else if status == "Out of Stock" then RED
    else GRAY
  }

  /** `getStatusColor`. */
  function StatusColor(status: string, t: Option<string>): (c: string)
    ensures BadgeType(t) == "order" ==> c == OrderColor(status)
    ensures BadgeType(t) == "product" ==> c == ProductColor(status)
    ensures BadgeType(t) != "order" && BadgeType(t) != "product" ==> c == GRAY
  {
    var ty := BadgeType(t);
    if ty == "order" then OrderColor(status)
    else if ty == "product" then ProductColor(status)
    else GRAY
  }

  /** The rendered badge: its class list and its text. */
  datatype Badge = Badge(className: string, text: string)

  function Render(status: string, t: Option<string>): (b: Badge)
    ensures b.text == status
    ensures b.className == BADGE_CLASSES + StatusColor(status, t)
  {
    Badge(BADGE_CLASSES + StatusColor(status, t), status)
  }

  /** Only the known statuses of a type get a colour other than gray, each its own. */
  lemma KnownStatusesOnly(status: string, t: Option<string>)
    ensures StatusColor(status, t) != GRAY <==>
              (BadgeType(t) == "order" && status in ORDER_STATUSES)
              || (BadgeType(t) == "product" && status in PRODUCT_STATUSES)
  {
  }

  /** The order table (the default type) colours every order status differently. */
  lemma OrderColoursDistinct(a: string, b: string)
    requires a in ORDER_STATUSES && b in ORDER_STATUSES && a != b
    ensures StatusColor(a, None) != StatusColor(b, None)
  {
  }
}
