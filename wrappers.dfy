/** The optional result every fail-soft lookup returns: `None` stands for
    Python's `None`, whether the lookup found nothing or raised and was caught. */
module Wrappers {

  datatype Option<+T> = None | Some(value: T)
}
