/** The unit of work that travels through the queue: a square search region and a keyword.
    A task has no identifier; two tasks with the same fields are the same task (the queue
    stores and compares their JSON encodings). */
module Tasks {

  /** The dictionary `{"lat", "lng", "width", "keyword"}`: the centre in degrees, the side
      of the square in metres and the search term. */
  datatype Task = Task(lat: real, lng: real, width: real, keyword: string)
}
