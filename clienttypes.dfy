/**
 * The customer and owner apps' own view of the data (their `types/api.ts`):
 * prices are whole won, statuses arrive as the strings the server sends.
 */
module ClientTypes {
  datatype OptionChoice = OptionChoice(id: string, name: string, priceModifier: int)
  datatype MenuOption = MenuOption(id: string, name: string, required: bool, choices: seq<OptionChoice>)
  datatype MenuItem = MenuItem(id: string, name: string, description: string, price: int,
                               category: string, available: bool, options: seq<MenuOption>)

  /** A chosen choice of one option, with the modifier it adds to the unit price. */
  datatype SelectedOption = SelectedOption(optionId: string, choiceId: string, priceModifier: int)

  /** A cart line: `price` is the unit price and `totalPrice` the line's amount. */
  datatype CartItem = CartItem(menuItemId: string, name: string, price: int, quantity: int,
                               selectedOptions: seq<SelectedOption>, totalPrice: int)

  /** An order as the owner's order list shows it. */
  datatype Order = Order(orderId: string, status: string, totalAmount: int, createdAt: string)
}
