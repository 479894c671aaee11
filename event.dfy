/** The SDK's fixed limits, error codes, reserved attribute names and preset
    event names (the tables of src/provider/Event.ts). */
module Event {

  // Limits
  const MAX_EVENT_TYPE_LENGTH := 50
  const MAX_NUM_OF_ATTRIBUTES := 500
  const MAX_NUM_OF_USER_ATTRIBUTES := 100
  const MAX_LENGTH_OF_NAME := 50
  const MAX_LENGTH_OF_VALUE := 1024
  const MAX_LENGTH_OF_USER_VALUE := 256
  const MAX_LENGTH_OF_ERROR_VALUE := 256
  const MAX_NUM_OF_ITEMS := 100
  const MAX_LENGTH_OF_ITEM_VALUE := 256

  // Error codes
  const NO_ERROR := 0
  const EVENT_NAME_INVALID := 1001
  const EVENT_NAME_LENGTH_EXCEED := 1002
  const ATTRIBUTE_NAME_LENGTH_EXCEED := 2001
  const ATTRIBUTE_NAME_INVALID := 2002
  const ATTRIBUTE_VALUE_LENGTH_EXCEED := 2003
  const ATTRIBUTE_SIZE_EXCEED := 2004
  const USER_ATTRIBUTE_SIZE_EXCEED := 3001
  const USER_ATTRIBUTE_NAME_LENGTH_EXCEED := 3002
  const USER_ATTRIBUTE_NAME_INVALID := 3003
  const USER_ATTRIBUTE_VALUE_LENGTH_EXCEED := 3004
  const ITEM_SIZE_EXCEED := 4001
  const ITEM_VALUE_LENGTH_EXCEED := 4002

  // Reserved attribute names
  const USER_ID := "_user_id"
  const USER_FIRST_TOUCH_TIMESTAMP := "_user_first_touch_timestamp"
  const ERROR_CODE := "_error_code"
  const ERROR_MESSAGE := "_error_message"
  const IS_FIRST_TIME := "_is_first_time"
  const ENGAGEMENT_TIMESTAMP := "_engagement_time_msec"
  const PAGE_URL := "_page_url"
  const PAGE_TITLE := "_page_title"
  const PAGE_REFERRER := "_page_referrer"
  const PAGE_REFERRER_TITLE := "_page_referrer_title"
  const PREVIOUS_TIMESTAMP := "_previous_timestamp"
  const ENTRANCES := "_entrances"
  const SESSION_ID := "_session_id"
  const SESSION_DURATION := "_session_duration"
  const SESSION_NUMBER := "_session_number"
  const SESSION_START_TIMESTAMP := "_session_start_timestamp"
  const SEARCH_KEY := "_search_key"
  const SEARCH_TERM := "_search_term"

  // Preset event names
  const FIRST_OPEN := "_first_open"
  const APP_START := "_app_start"
  const APP_END := "_app_end"
  const PROFILE_SET := "_profile_set"
  const CLICKSTREAM_ERROR := "_clickstream_error"
  const SESSION_START := "_session_start"
  const USER_ENGAGEMENT := "_user_engagement"
  const PAGE_VIEW := "_page_view"
  const CLICK := "_click"
  const SEARCH := "_search"
  const SCROLL := "_scroll"

  /** The default search-query keywords, in the order they are tried. */
  const KEYWORDS: seq<string> := ["q", "s", "search", "query", "keyword"]
}
