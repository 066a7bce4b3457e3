/**
 * The contract of the provider's schema class `MoocSchema`, whose source is
 * not part of this model. Its column-name constants are represented by the
 * constructors of `Column`, so the model ASSUMES what the converters rely
 * on: the names are pairwise distinct and `ID` differs from every field
 * column. The constants `Story.Cols.ID`, `LOGIN_ID` and `STORY_ID` and their
 * `Tags.Cols` namesakes are represented by one constructor each; rows of the
 * two tables never meet, so nothing depends on whether the strings agree.
 */
module MoocSchema {

  datatype Column =
    | ID
    | LOGIN_ID
    | STORY_ID
    // Story table only
    | TITLE
    | BODY
    | AUDIO_LINK
    | VIDEO_LINK
    | IMAGE_NAME
    | IMAGE_LINK
    | TAGS
    | CREATION_TIME
    | STORY_TIME
    | LATITUDE
    | LONGITUDE
    // Tags table only
    | TAG

  /** The Story columns other than the row id. */
  const STORY_FIELD_COLUMNS: set<Column> :=
    {LOGIN_ID, STORY_ID, TITLE, BODY, AUDIO_LINK, VIDEO_LINK, IMAGE_NAME,
     IMAGE_LINK, TAGS, CREATION_TIME, STORY_TIME, LATITUDE, LONGITUDE}

  /** Every Story column: what a result row must hold to be read as a StoryData. */
  const STORY_COLUMNS: set<Column> := STORY_FIELD_COLUMNS + {ID}

  /** The Tags columns other than the row id. */
  const TAGS_FIELD_COLUMNS: set<Column> := {LOGIN_ID, STORY_ID, TAG}

  /** Every Tags column. */
  const TAGS_COLUMNS: set<Column> := TAGS_FIELD_COLUMNS + {ID}

  /**
   * Content URIs. `Story.CONTENT_URI` and `Tags.CONTENT_URI` are fixed
   * endpoints; `ProviderUri` stands for any URI the provider hands back
   * (for instance the URI of a newly inserted row), whose form is the
   * provider's business.
   */
  datatype Uri =
    | StoryContentUri
    | TagsContentUri
    | ProviderUri(text: string)
}
