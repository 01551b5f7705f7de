/** The bot's activity as the chat page reports it to its avatars: the strings
    'idle', 'listening', 'thinking' and 'speaking'. */
module BotStates {

  datatype BotState = Idle | Listening | Thinking | Speaking
}
