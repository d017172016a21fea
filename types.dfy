/** The two records the backend stores and broadcasts. */
module Types {

  /** One cell of the canvas; identified by its coordinates (x, y). */
  datatype Pixel = Pixel(x: int, y: int, color: string, userId: string, time: int)

  /** One chat message; identified by id. */
  datatype ChatMessage = ChatMessage(id: string, userId: string, message: string, time: int)
}
