/** The record shape of a stored flashcard set (models/Flashcard.ts). */
module FlashcardModel {

  /** One card: the term on the front, the definition on the back. */
  datatype Flashcard = Flashcard(term: string, definition: string)

  /** A topic and its cards, in order. */
  datatype FlashcardSet = FlashcardSet(topic: string, flashcards: seq<Flashcard>)
}
